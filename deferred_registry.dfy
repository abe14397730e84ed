/** The deferred-element completion table: identifiers of deferred menu
    elements mapped to the one-shot completion handlers the native menu system
    handed over when it asked for their contents. These functions say what the
    button's methods do to the table; the lemmas say what that means over a
    whole run. */
module DeferredRegistry {
  import opened Wrappers
  import opened MenuModel

  /** An opaque completion handler; two requests never share one. */
  datatype Handler = Handler(token: nat)

  /** One call of a completion handler, with the elements it received. */
  datatype Invocation = Invocation(handler: Handler, elements: seq<MenuElement>)

  type CompletionTable = map<string, Handler>

  /** Registering a request: `id` now maps to `h`, replacing any earlier
      handler; every other entry is kept. */
  function Register(table: CompletionTable, id: string, h: Handler): (r: CompletionTable)
    ensures id in r && r[id] == h
    ensures r.Keys == table.Keys + {id}
    ensures forall k :: k in table && k != id ==> k in r && r[k] == table[k]
  {
    table[id := h]
  }

  datatype Resolution =
    | NoHandler
    | Invoked(invocation: Invocation, rest: CompletionTable)

  /** Resolving a request: an unknown `id` is an error; otherwise the stored
      handler is called once with `elements` and its entry is removed, no
      other entry being touched. */
  function Resolve(table: CompletionTable, id: string, elements: seq<MenuElement>): (r: Resolution)
    ensures r.NoHandler? <==> id !in table
    ensures r.Invoked? ==> r.invocation.handler == table[id] && r.invocation.elements == elements
    ensures r.Invoked? ==> id !in r.rest && r.rest.Keys == table.Keys - {id}
    ensures r.Invoked? ==> forall k :: k in r.rest ==> r.rest[k] == table[k]
  {
    if id in table then Invoked(Invocation(table[id], elements), table - {id}) else NoHandler
  }

  /** Orphan cleanup against `config`: the entries whose identifier still
      names a deferred element of `config`, with their handlers. */
  function PruneOrphans(table: CompletionTable, config: MenuElement): (r: CompletionTable)
    ensures forall k :: k in r ==> HasDeferred(config, k)
    ensures forall k :: k in table && HasDeferred(config, k) ==> k in r && r[k] == table[k]
    ensures r.Keys <= table.Keys
    ensures table == map[] ==> r == table
  {
    map k | k in table && !IsOrphan(k, config) :: table[k]
  }

  /** An immediate second resolution of the same identifier fails. */
  lemma ResolveTwiceFails(table: CompletionTable, id: string, first: seq<MenuElement>, second: seq<MenuElement>)
    requires Resolve(table, id, first).Invoked?
    ensures Resolve(Resolve(table, id, first).rest, id, second).NoHandler?
  {
  }

  /** What happens to the table over the button's life. `Reconfigure(None)`
      is a configuration that was rejected, which leaves the table alone. */
  datatype RegistryEvent =
    | Request(deferredID: string, handler: Handler)
    | Provide(deferredID: string, elements: seq<MenuElement>)
    | Reconfigure(config: Option<MenuElement>)

  datatype RegistryState = RegistryState(table: CompletionTable, invocations: seq<Invocation>)

  function Step(s: RegistryState, ev: RegistryEvent): RegistryState
  {
    match ev
    case Request(id, h) => RegistryState(Register(s.table, id, h), s.invocations)
    case Provide(id, elements) =>
      (match Resolve(s.table, id, elements)
       case NoHandler => s
       case Invoked(inv, rest) => RegistryState(rest, s.invocations + [inv]))
    case Reconfigure(None) => s
    case Reconfigure(Some(config)) => RegistryState(PruneOrphans(s.table, config), s.invocations)
  }

  function Run(s: RegistryState, evs: seq<RegistryEvent>): RegistryState
    decreases |evs|
  {
    if evs == [] then s else Run(Step(s, evs[0]), evs[1..])
  }

  /** No handler appears twice in the invocation log. */
  predicate InvokedAtMostOnce(invocations: seq<Invocation>)
  {
    forall i, j :: 0 <= i < j < |invocations| ==> invocations[i].handler != invocations[j].handler
  }

  /** Every request in `evs` brings its own handler. */
  predicate HandlersDistinct(evs: seq<RegistryEvent>)
  {
    forall i, j :: 0 <= i < j < |evs| && evs[i].Request? && evs[j].Request? ==> evs[i].handler != evs[j].handler
  }

  /** `h` is neither pending in `s` nor already invoked. */
  predicate Unused(s: RegistryState, h: Handler)
  {
    && (forall k :: k in s.table ==> s.table[k] != h)
    && (forall i :: 0 <= i < |s.invocations| ==> s.invocations[i].handler != h)
  }

  /** The invariant of the one-shot argument: pending handlers are pairwise
      distinct, none of them was invoked yet, and no handler was invoked twice. */
  predicate OneShotState(s: RegistryState)
  {
    && (forall k1, k2 :: k1 in s.table && k2 in s.table && k1 != k2 ==> s.table[k1] != s.table[k2])
    && (forall k :: k in s.table ==> Unused(RegistryState(map[], s.invocations), s.table[k]))
    && InvokedAtMostOnce(s.invocations)
  }

  lemma StepKeepsOneShot(s: RegistryState, ev: RegistryEvent)
    requires OneShotState(s)
    requires ev.Request? ==> Unused(s, ev.handler)
    ensures OneShotState(Step(s, ev))
    ensures forall h :: Unused(s, h) && !(ev.Request? && ev.handler == h) ==> Unused(Step(s, ev), h)
  {
  }

  lemma {:induction false} RunKeepsOneShot(s: RegistryState, evs: seq<RegistryEvent>)
    requires OneShotState(s)
    requires HandlersDistinct(evs)
    requires forall i :: 0 <= i < |evs| && evs[i].Request? ==> Unused(s, evs[i].handler)
    ensures OneShotState(Run(s, evs))
    decreases |evs|
  {
    if evs != [] {
      StepKeepsOneShot(s, evs[0]);
      var rest := evs[1..];
      forall i | 0 <= i < |rest| && rest[i].Request?
        ensures Unused(Step(s, evs[0]), rest[i].handler)
      {
        assert rest[i] == evs[i + 1];
      }
      assert HandlersDistinct(rest) by {
        forall i, j | 0 <= i < j < |rest| && rest[i].Request? && rest[j].Request?
          ensures rest[i].handler != rest[j].handler
        {
          assert rest[i] == evs[i + 1] && rest[j] == evs[j + 1];
        }
      }
      RunKeepsOneShot(Step(s, evs[0]), rest);
    }
  }

  /** Completion handlers are one-shot: starting from an empty table, over
      any sequence of requests, resolutions and reconfigurations in which each
      request brings a new handler, no handler is ever invoked twice. */
  lemma HandlersAreOneShot(evs: seq<RegistryEvent>)
    requires HandlersDistinct(evs)
    ensures InvokedAtMostOnce(Run(RegistryState(map[], []), evs).invocations)
  {
    RunKeepsOneShot(RegistryState(map[], []), evs);
  }
}
