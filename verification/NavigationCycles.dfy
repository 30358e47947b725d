/**
 When the tree sort ends, for any records. The map keeps one node for each id, so a
 record that repeats an id pushes a node that is already in a list.
 */
module NavigationCycles {
  import opened Common
  import opened Navigation

  /** The record whose node the map holds under this record's id. */
  function NodeOf(records: seq<MenuSource>, i: nat): (n: nat)
    requires i < |records|
    ensures n < |records| && records[n].id == records[i].id
  {
    IndexOf(records, records[i].id).value
  }

  /** The node onto whose list the linking loop pushes the node of record i; None is the list of roots. */
  function ListOf(records: seq<MenuSource>, i: nat): (p: Option<nat>)
    requires i < |records|
    ensures p.Some? ==> p.value < |records|
  {
    var parentId := records[i].parentId;
    if parentId.None? || parentId.value == "" then None
    else
      var p := IndexOf(records, parentId.value);
      if p == Some(NodeOf(records, i)) then None else p
  }

  ghost predicate Pushed(records: seq<MenuSource>, list: Option<nat>, node: nat) {
    exists i :: 0 <= i < |records| && ListOf(records, i) == list && NodeOf(records, i) == node
  }

  /** The nodes of nested calls of sortTree, the first one in the list of roots. */
  ghost predicate Descent(records: seq<MenuSource>, path: seq<nat>) {
    && path != [] && Pushed(records, None, path[0])
    && forall k :: 0 < k < |path| ==> Pushed(records, Some(path[k - 1]), path[k])
  }

  /** The calls nest to a bounded depth. */
  ghost predicate SortEnds(records: seq<MenuSource>) {
    exists bound: nat :: Bounded(records, bound)
  }

  ghost predicate Bounded(records: seq<MenuSource>, bound: nat) {
    forall path :: Descent(records, path) ==> |path| <= bound
  }

  ghost predicate Returns(records: seq<MenuSource>, path: seq<nat>, i: int, j: int) {
    Descent(records, path) && 0 <= i < j < |path| && path[i] == path[j]
  }

  /** Some node that can be reached from the roots is below itself. */
  ghost predicate HasCycle(records: seq<MenuSource>) {
    exists path, i, j :: Returns(records, path, i, j)
  }

  // ---- A cycle nests without end ------------------------------------------------------------------

  /** Going round once more. */
  lemma Longer(records: seq<MenuSource>, path: seq<nat>, i: nat, j: nat)
    requires Returns(records, path, i, j)
    ensures Returns(records, path[..j] + path[i..], i, j) && |path[..j] + path[i..]| > |path|
  {
    var longer := path[..j] + path[i..];
    forall k | 0 < k < |longer| ensures Pushed(records, Some(longer[k - 1]), longer[k]) {
      if k < j {
        assert longer[k - 1] == path[k - 1] && longer[k] == path[k];
      } else if k == j {
        assert longer[k - 1] == path[j - 1] && longer[k] == path[i] == path[j];
      } else {
        assert longer[k - 1] == path[k - 1 - j + i] && longer[k] == path[k - j + i];
      }
    }
  }

  lemma {:induction false} AsDeepAsYouLike(records: seq<MenuSource>, path: seq<nat>, i: nat, j: nat, n: nat)
    returns (deep: seq<nat>)
    requires Returns(records, path, i, j)
    ensures Descent(records, deep) && |deep| > n
    decreases n - |path|
  {
    if |path| > n {
      deep := path;
    } else {
      Longer(records, path, i, j);
      deep := AsDeepAsYouLike(records, path[..j] + path[i..], i, j, n);
    }
  }

  // ---- Without one the depth is bounded --------------------------------------------------------------

  ghost predicate Distinct(path: seq<nat>) {
    forall i, j :: 0 <= i < j < |path| ==> path[i] != path[j]
  }

  lemma {:induction false} DistinctIsShort(path: seq<nat>, n: nat)
    requires Distinct(path) && forall k :: 0 <= k < |path| ==> path[k] < n
    ensures |path| <= n
  {
    var members := set k | 0 <= k < |path| :: path[k];
    CountMembers(path);
    BoundedSet(members, n);
  }

  lemma {:induction false} CountMembers(path: seq<nat>)
    requires Distinct(path)
    ensures |set k | 0 <= k < |path| :: path[k]| == |path|
  {
    if path != [] {
      var prefix, last := path[..|path| - 1], path[|path| - 1];
      CountMembers(prefix);
      assert forall k :: 0 <= k < |prefix| ==> prefix[k] == path[k];
      assert (set k | 0 <= k < |path| :: path[k]) == (set k | 0 <= k < |prefix| :: prefix[k]) + {last};
    }
  }

  lemma DescentsAreShort(records: seq<MenuSource>)
    requires !HasCycle(records)
    ensures Bounded(records, |records|)
  {
    forall path | Descent(records, path) ensures |path| <= |records| {
      forall k | 0 <= k < |path| ensures path[k] < |records| {
        assert k > 0 ==> Pushed(records, Some(path[k - 1]), path[k]);
      }
      forall i, j | 0 <= i < j < |path| ensures path[i] != path[j] {
        assert !Returns(records, path, i, j);
      }
      DistinctIsShort(path, |records|);
    }
  }

  /** The sort ends if and only if no cycle can be reached from the roots. */
  lemma SortEndsWithoutCycles(records: seq<MenuSource>)
    ensures SortEnds(records) <==> !HasCycle(records)
  {
    if HasCycle(records) {
      var path, i, j :| Returns(records, path, i, j);
      if bound: nat :| Bounded(records, bound) {
        var deep := AsDeepAsYouLike(records, path, i, j, bound);
        assert false;
      }
    } else {
      DescentsAreShort(records);
    }
  }

  // ---- Unique ids, and repeated ones -------------------------------------------------------------------

  lemma UniqueNodes(records: seq<MenuSource>, i: nat)
    requires UniqueIds(records) && i < |records|
    ensures NodeOf(records, i) == i && ListOf(records, i) == Parent(records, i)
  {
    OwnIndex(records, i);
  }

  lemma {:induction false} DescentDepth(records: seq<MenuSource>, path: seq<nat>, k: nat)
    requires UniqueIds(records) && Descent(records, path) && k < |path|
    ensures path[k] < |records| && Ends(records, path[k], k)
  {
    var list := if k == 0 then None else Some(path[k - 1]);
    assert Pushed(records, list, path[k]);
    var i :| 0 <= i < |records| && ListOf(records, i) == list && NodeOf(records, i) == path[k];
    UniqueNodes(records, i);
    EndsFromParent(records, path[k], k);
    if k > 0 {
      DescentDepth(records, path, k - 1);
    }
  }

  /** With unique ids the sort always ends. */
  lemma UniqueIdsEnd(records: seq<MenuSource>)
    requires UniqueIds(records)
    ensures SortEnds(records)
  {
    if path, i, j :| Returns(records, path, i, j) {
      DescentDepth(records, path, i);
      DescentDepth(records, path, j);
      EndsOnce(records, path[i], i, j);
      assert false;
    }
    SortEndsWithoutCycles(records);
  }

  /** Three records, two of one id: the node of that id is a root and lies below its own child. */
  lemma RepeatedIdsCanLoop(records: seq<MenuSource>, a: MenuSource, b: MenuSource, c: MenuSource)
    requires records == [a, b, c]
    requires a.id == b.id == "menu" && c.id == "group"
    requires a.parentId.None? && b.parentId == Some("group") && c.parentId == Some("menu")
    ensures !SortEnds(records)
  {
    assert records[..2] == [a, b];
    assert IndexOf(records, "group") == Some(2) && IndexOf(records[..2], "menu") == Some(1);
    assert ListOf(records, 0) == None && NodeOf(records, 0) == 1;
    assert ListOf(records, 1) == Some(2) && NodeOf(records, 1) == 1;
    assert ListOf(records, 2) == Some(1) && NodeOf(records, 2) == 2;
    assert Returns(records, [1, 2, 1], 0, 2);
    SortEndsWithoutCycles(records);
  }
}
