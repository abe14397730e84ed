/** Values that cross the bridge from the host layer (command arguments, menu
    element descriptions and event payloads), and the typed reads the button
    performs on them. */
module BridgeValues {
  import opened Wrappers
  import opened MenuErrors
  import opened MenuModel

  /** A bridged value. `Other` stands for every value no cast in the button
      accepts: null, numbers, booleans, and dictionaries whose keys are not
      strings (which do not cast to `[String: Any]`). */
  datatype Value =
    | Str(s: string)
    | Array(items: seq<Value>)
    | Dict(entries: map<string, Value>)
    | Other

  /** `getValueFromDictionary(forKey:)` read as a `String`: fails unless the
      key is present and holds a string. */
  function GetString(d: map<string, Value>, key: string): (r: Result<string>)
    ensures r.Success? <==> key in d && d[key].Str?
    ensures r.Success? ==> d[key] == Str(r.value)
    ensures r.Failure? ==> r.error == InvalidArgument(key)
  {
    if key in d && d[key].Str? then Success(d[key].s) else Failure(InvalidArgument(key))
  }

  /** `getValueFromDictionary(forKey:)` read as an `[Any]`: fails unless the
      key is present and holds an array. */
  function GetArray(d: map<string, Value>, key: string): (r: Result<seq<Value>>)
    ensures r.Success? <==> key in d && d[key].Array?
    ensures r.Success? ==> d[key] == Array(r.value)
    ensures r.Failure? ==> r.error == InvalidArgument(key)
  {
    if key in d && d[key].Array? then Success(d[key].items) else Failure(InvalidArgument(key))
  }

  /** The `compactMap` over raw menu elements: an entry that is not a
      dictionary is dropped, and so is a dictionary that `parse` (the menu
      element initialiser, whose parse is not modelled) rejects. */
  function CompactMenuElements(raw: seq<Value>, parse: map<string, Value> -> Option<MenuElement>): (r: seq<MenuElement>)
    ensures |r| <= |raw|
    ensures forall e :: e in r ==> exists v :: v in raw && v.Dict? && parse(v.entries) == Some(e)
  {
    if raw == [] then []
    else
      var head := if raw[0].Dict? && parse(raw[0].entries).Some? then [parse(raw[0].entries).value] else [];
      head + CompactMenuElements(raw[1..], parse)
  }

  /** Compacting a concatenation compacts each part. */
  lemma {:induction false} CompactMenuElementsAppend(a: seq<Value>, b: seq<Value>, parse: map<string, Value> -> Option<MenuElement>)
    ensures CompactMenuElements(a + b, parse) == CompactMenuElements(a, parse) + CompactMenuElements(b, parse)
  {
    if a != [] {
      assert (a + b)[1..] == a[1..] + b;
      CompactMenuElementsAppend(a[1..], b, parse);
    } else {
      assert a + b == b;
    }
  }

  /** Entries that are not dictionaries contribute nothing. */
  lemma {:induction false} CompactMenuElementsDropsNonDictionaries(raw: seq<Value>, parse: map<string, Value> -> Option<MenuElement>)
    requires forall i :: 0 <= i < |raw| ==> !raw[i].Dict?
    ensures CompactMenuElements(raw, parse) == []
  {
    if raw != [] {
      CompactMenuElementsDropsNonDictionaries(raw[1..], parse);
    }
  }

  /** When the element parse accepts every dictionary, exactly the
      dictionaries survive, in order. */
  lemma {:induction false} CompactMenuElementsKeepsParsedDictionaries(raw: seq<Value>, parse: map<string, Value> -> Option<MenuElement>)
    requires forall v :: v in raw && v.Dict? ==> parse(v.entries).Some?
    ensures |CompactMenuElements(raw, parse)| == |DictionariesOf(raw)|
    ensures forall k :: 0 <= k < |DictionariesOf(raw)| ==> parse(DictionariesOf(raw)[k]).Some?
    ensures forall k :: 0 <= k < |DictionariesOf(raw)| ==>
              CompactMenuElements(raw, parse)[k] == parse(DictionariesOf(raw)[k]).value
  {
    if raw != [] {
      CompactMenuElementsKeepsParsedDictionaries(raw[1..], parse);
    }
  }

  /** The dictionary entries of `raw`, in order. */
  function DictionariesOf(raw: seq<Value>): (r: seq<map<string, Value>>)
    ensures forall m :: m in r ==> Dict(m) in raw
  {
    if raw == [] then []
    else (if raw[0].Dict? then [raw[0].entries] else []) + DictionariesOf(raw[1..])
  }
}
