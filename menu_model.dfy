/** The parsed menu configuration, reduced to what the button's bookkeeping
    reads from it: the tree shape and the identifiers of its deferred elements. */
module MenuModel {

  /** A node of a parsed menu configuration (`RNIMenuItem` and its elements). */
  datatype MenuElement =
    | Action(actionKey: string)
    | Deferred(deferredID: string)
    | Submenu(menuTitle: string, children: seq<MenuElement>)

  /** The `deferredID` of every deferred element in the tree, in tree order:
      what collecting all elements of the deferred type recursively yields. */
  function DeferredIDs(e: MenuElement): seq<string>
    decreases e, 1
  {
    match e
    case Action(_) => []
    case Deferred(id) => [id]
    case Submenu(_, children) => ChildrenDeferredIDs(children)
  }

  function ChildrenDeferredIDs(cs: seq<MenuElement>): seq<string>
    decreases cs, 0
  {
    if cs == [] then [] else DeferredIDs(cs[0]) + ChildrenDeferredIDs(cs[1..])
  }

  /** Reference definition: the tree has a deferred element named `id`. */
  predicate HasDeferred(e: MenuElement, id: string)
  {
    match e
    case Action(_) => false
    case Deferred(d) => d == id
    case Submenu(_, children) => exists i :: 0 <= i < |children| && HasDeferred(children[i], id)
  }

  /** The collected identifiers are exactly the deferred elements of the tree. */
  lemma {:induction false} DeferredIDsComplete(e: MenuElement, id: string)
    ensures id in DeferredIDs(e) <==> HasDeferred(e, id)
    decreases e, 1
  {
    match e
    case Action(_) =>
    case Deferred(_) =>
    case Submenu(_, children) => ChildrenDeferredIDsComplete(children, id);
  }

  lemma {:induction false} ChildrenDeferredIDsComplete(cs: seq<MenuElement>, id: string)
    ensures id in ChildrenDeferredIDs(cs) <==> exists i :: 0 <= i < |cs| && HasDeferred(cs[i], id)
    decreases cs, 0
  {
    if cs != [] {
      DeferredIDsComplete(cs[0], id);
      ChildrenDeferredIDsComplete(cs[1..], id);
      assert forall i :: 1 <= i < |cs| ==> cs[i] == cs[1..][i - 1];
    }
  }

  /** The orphan test of orphan cleanup: no deferred element of `config`
      carries the identifier `id`. */
  predicate IsOrphan(id: string, config: MenuElement)
    ensures IsOrphan(id, config) <==> !HasDeferred(config, id)
  {
    DeferredIDsComplete(config, id);
    id !in DeferredIDs(config)
  }
}
