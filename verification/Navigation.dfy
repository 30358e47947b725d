/**
 The console's navigation tree: records linked through a map by parent id, then a
 recursive sort of every sibling list; and the tree of the menus a user may see.
 */
module Navigation {
  import opened Common

  /** `collation` is the place of the name in the zh-CN order that localeCompare uses. */
  datatype MenuSource = MenuSource(
    id: string, parentId: Option<string>, name: string, path: string, icon: string,
    sortOrder: int, requiredPermission: Option<string>, collation: int)

  // ---- Parent chains -----------------------------------------------------------------------------

  ghost predicate UniqueIds(records: seq<MenuSource>) {
    forall i, j :: 0 <= i < j < |records| ==> records[i].id != records[j].id
  }

  /** The last record with the id, which is the one a map of the records holds. */
  function IndexOf(records: seq<MenuSource>, id: string): (r: Option<nat>)
    ensures r.Some? ==> r.value < |records| && records[r.value].id == id
    ensures r.None? ==> forall i :: 0 <= i < |records| ==> records[i].id != id
  {
    if records == [] then None
    else if records[|records| - 1].id == id then Some(|records| - 1)
    else IndexOf(records[..|records| - 1], id)
  }

  lemma OwnIndex(records: seq<MenuSource>, i: nat)
    requires UniqueIds(records) && i < |records|
    ensures IndexOf(records, records[i].id) == Some(i)
  {
  }

  /** A blank, missing or own id as parent makes a root. */
  function Parent(records: seq<MenuSource>, i: nat): (p: Option<nat>)
    requires i < |records|
    ensures p.Some? ==> p.value < |records| && p.value != i
  {
    var parentId := records[i].parentId;
    if parentId.None? || parentId.value == "" then None
    else
      var p := IndexOf(records, parentId.value);
      if p == Some(i) then None else p
  }

  /** The ancestor k levels up. */
  function Up(records: seq<MenuSource>, i: nat, k: nat): (a: Option<nat>)
    requires i < |records|
    ensures a.Some? ==> a.value < |records|
  {
    if k == 0 then Some(i)
    else
      match Up(records, i, k - 1)
      case None => None
      case Some(c) => Parent(records, c)
  }

  /** The parent chain of i ends after n steps. */
  ghost predicate Ends(records: seq<MenuSource>, i: nat, n: nat)
    requires i < |records|
  {
    Up(records, i, n).Some? && Parent(records, Up(records, i, n).value).None?
  }

  ghost predicate Grounded(records: seq<MenuSource>, i: nat)
    requires i < |records|
  {
    exists n: nat :: Ends(records, i, n)
  }

  lemma {:induction false} UpFromParent(records: seq<MenuSource>, i: nat, k: nat)
    requires i < |records|
    ensures Up(records, i, k + 1) ==
            if Parent(records, i).Some? then Up(records, Parent(records, i).value, k) else None
  {
    if k > 0 {
      UpFromParent(records, i, k - 1);
    }
  }

  lemma EndsFromParent(records: seq<MenuSource>, i: nat, n: nat)
    requires i < |records|
    ensures Ends(records, i, n) <==>
              if Parent(records, i).None? then n == 0 else n > 0 && Ends(records, Parent(records, i).value, n - 1)
  {
    if n > 0 {
      UpFromParent(records, i, n - 1);
    }
  }

  lemma {:induction false} EndsOnce(records: seq<MenuSource>, i: nat, m: nat, n: nat)
    requires i < |records| && Ends(records, i, m) && Ends(records, i, n)
    ensures m == n
    decreases m
  {
    EndsFromParent(records, i, m);
    EndsFromParent(records, i, n);
    if Parent(records, i).Some? {
      EndsOnce(records, Parent(records, i).value, m - 1, n - 1);
    }
  }

  /** i and its ancestors up to the root of its chain. */
  ghost function Chain(records: seq<MenuSource>, i: nat, n: nat): (chain: set<nat>)
    requires i < |records| && Ends(records, i, n)
    decreases n
  {
    EndsFromParent(records, i, n);
    if n == 0 then {i} else {i} + Chain(records, Parent(records, i).value, n - 1)
  }

  ghost predicate EndsWithin(records: seq<MenuSource>, i: nat, n: int)
    requires i < |records|
  {
    exists m: nat :: m <= n && Ends(records, i, m)
  }

  lemma NotEarlier(records: seq<MenuSource>, i: nat, n: nat)
    requires i < |records| && Ends(records, i, n)
    ensures !EndsWithin(records, i, n - 1)
  {
    if EndsWithin(records, i, n - 1) {
      var m: nat :| m <= n - 1 && Ends(records, i, m);
      EndsOnce(records, i, m, n);
    }
  }

  lemma {:induction false} ChainEnds(records: seq<MenuSource>, i: nat, n: nat, j: nat)
    requires i < |records| && Ends(records, i, n) && j in Chain(records, i, n)
    ensures j < |records| && EndsWithin(records, j, n)
    decreases n
  {
    EndsFromParent(records, i, n);
    if j != i {
      ChainEnds(records, Parent(records, i).value, n - 1, j);
      var m: nat :| m <= n - 1 && Ends(records, j, m);
    }
  }

  /** On a chain that ends nothing repeats: each member is at its own distance from the root. */
  lemma {:induction false} ChainIsDistinct(records: seq<MenuSource>, i: nat, n: nat)
    requires i < |records| && Ends(records, i, n)
    ensures |Chain(records, i, n)| == n + 1
    ensures forall j :: j in Chain(records, i, n) ==> j < |records|
    decreases n
  {
    EndsFromParent(records, i, n);
    if n > 0 {
      var p := Parent(records, i).value;
      ChainIsDistinct(records, p, n - 1);
      NotOnOwnChain(records, i, p, n);
    }
  }

  lemma NotOnOwnChain(records: seq<MenuSource>, i: nat, p: nat, n: nat)
    requires i < |records| && p < |records| && n > 0 && Ends(records, i, n) && Ends(records, p, n - 1)
    ensures i !in Chain(records, p, n - 1)
  {
    NotEarlier(records, i, n);
    if i in Chain(records, p, n - 1) {
      ChainEnds(records, p, n - 1, i);
    }
  }

  lemma BoundedSet(s: set<nat>, n: nat)
    requires forall j :: j in s ==> j < n
    ensures |s| <= n
  {
    if n == 0 {
      assert s == {};
    } else {
      BoundedSet(s - {n - 1}, n - 1);
    }
  }

  lemma DepthIsBounded(records: seq<MenuSource>, i: nat, n: nat)
    requires i < |records| && Ends(records, i, n)
    ensures n < |records|
  {
    ChainIsDistinct(records, i, n);
    BoundedSet(Chain(records, i, n), |records|);
  }

  // ---- Order among siblings ----------------------------------------------------------------------

  /** byOrder returns a negative number. */
  predicate Less(a: MenuSource, b: MenuSource) {
    a.sortOrder < b.sortOrder || (a.sortOrder == b.sortOrder && a.collation < b.collation)
  }

  /** byOrder, and between records it cannot tell apart the order in which they came. */
  predicate Before(records: seq<MenuSource>, a: nat, b: nat)
    requires a < |records| && b < |records|
  {
    Less(records[a], records[b]) || (!Less(records[b], records[a]) && a < b)
  }

  ghost predicate Within(records: seq<MenuSource>, s: seq<nat>) {
    forall k :: 0 <= k < |s| ==> s[k] < |records|
  }

  ghost predicate InRecordOrder(s: seq<nat>) {
    forall j, k :: 0 <= j < k < |s| ==> s[j] < s[k]
  }

  ghost predicate Sorted(records: seq<MenuSource>, s: seq<nat>)
    requires Within(records, s)
  {
    forall j, k :: 0 <= j < k < |s| ==> Before(records, s[j], s[k])
  }

  /** Records that byOrder cannot tell apart are in record order: all that a stable sort needs. */
  ghost predicate Stable(records: seq<MenuSource>, s: seq<nat>)
    requires Within(records, s)
  {
    forall j, k :: 0 <= j < k < |s| ==>
      s[j] != s[k] && (!Less(records[s[k]], records[s[j]]) ==> Before(records, s[j], s[k]))
  }

  ghost predicate SameElements(s: seq<nat>, t: seq<nat>) {
    forall x :: x in s <==> x in t
  }

  /** All children of p, or all roots. */
  ghost predicate Siblings(records: seq<MenuSource>, p: Option<nat>, s: seq<nat>) {
    && Within(records, s)
    && (forall k :: 0 <= k < |s| ==> Parent(records, s[k]) == p)
    && (forall j :: 0 <= j < |records| && Parent(records, j) == p ==> j in s)
  }

  lemma {:induction false} SortedIsUnique(records: seq<MenuSource>, s: seq<nat>, t: seq<nat>)
    requires Within(records, s) && Within(records, t) && Sorted(records, s) && Sorted(records, t) && SameElements(s, t)
    ensures s == t
  {
    if t != [] {
      assert t[0] in s;
    }
    if s != [] {
      assert s[0] in t && t[0] in s;
      assert s[0] == t[0];
      DropFirst(records, s, t);
      DropFirst(records, t, s);
      SortedIsUnique(records, s[1..], t[1..]);
      assert s == [s[0]] + s[1..] && t == [t[0]] + t[1..];
    }
  }

  lemma DropFirst(records: seq<MenuSource>, s: seq<nat>, t: seq<nat>)
    requires s != [] && t != [] && s[0] == t[0] && Within(records, s) && Sorted(records, s) && SameElements(s, t)
    ensures forall x :: x in s[1..] ==> x in t[1..]
  {
    forall x | x in s[1..] ensures x in t[1..] {
      var k :| 0 <= k < |s[1..]| && s[1..][k] == x;
      assert Before(records, s[0], s[k + 1]);
      assert x in t && x != t[0];
    }
  }

  // ---- The forest as a value ------------------------------------------------------------------------

  /** Which records each list holds, by their place among the records. */
  datatype Forest = Forest(roots: seq<nat>, children: seq<seq<nat>>)

  /** Following list positions down from the roots. */
  function Follow(f: Forest, path: seq<nat>): (r: Option<nat>)
    ensures r.Some? ==> path != []
  {
    if path == [] then None
    else
      var last := path[|path| - 1];
      if |path| == 1 then (if last < |f.roots| then Some(f.roots[last]) else None)
      else
        match Follow(f, path[..|path| - 1])
        case None => None
        case Some(i) => if i < |f.children| && last < |f.children[i]| then Some(f.children[i][last]) else None
  }

  ghost predicate RootsFit(records: seq<MenuSource>, f: Forest) {
    Siblings(records, None, f.roots) && Sorted(records, f.roots)
  }

  ghost predicate ChildrenFit(records: seq<MenuSource>, f: Forest, i: nat)
    requires i < |records| == |f.children|
  {
    && Siblings(records, Some(i), f.children[i]) && Stable(records, f.children[i])
    && (Grounded(records, i) ==> Sorted(records, f.children[i]))
  }

  /** Every list is exactly its siblings, once each; the lists that can be reached are sorted. */
  ghost predicate IsForest(records: seq<MenuSource>, f: Forest) {
    && |f.children| == |records| && RootsFit(records, f)
    && forall i :: 0 <= i < |records| ==> ChildrenFit(records, f, i)
  }

  lemma {:induction false} FollowedParent(records: seq<MenuSource>, f: Forest, path: seq<nat>)
    requires IsForest(records, f) && Follow(f, path).Some?
    ensures Follow(f, path).value < |records|
    ensures Parent(records, Follow(f, path).value) == if |path| == 1 then None else Follow(f, path[..|path| - 1])
  {
    if |path| > 1 {
      assert ChildrenFit(records, f, Follow(f, path[..|path| - 1]).value);
    }
  }

  /** A path of length n + 1 leads to a record at depth n. */
  lemma {:induction false} FollowedIsGrounded(records: seq<MenuSource>, f: Forest, path: seq<nat>)
    requires IsForest(records, f) && Follow(f, path).Some?
    ensures Follow(f, path).value < |records| && Ends(records, Follow(f, path).value, |path| - 1)
  {
    FollowedParent(records, f, path);
    EndsFromParent(records, Follow(f, path).value, |path| - 1);
    if |path| > 1 {
      FollowedIsGrounded(records, f, path[..|path| - 1]);
    }
  }

  lemma {:induction false} GroundedIsFollowed(records: seq<MenuSource>, f: Forest, i: nat, n: nat)
    returns (path: seq<nat>)
    requires IsForest(records, f) && i < |records| && Ends(records, i, n)
    ensures Follow(f, path) == Some(i) && |path| == n + 1
    decreases n
  {
    EndsFromParent(records, i, n);
    if n == 0 {
      var k :| 0 <= k < |f.roots| && f.roots[k] == i;
      path := [k];
    } else {
      var p := Parent(records, i).value;
      var prefix := GroundedIsFollowed(records, f, p, n - 1);
      assert ChildrenFit(records, f, p) && i in f.children[p];
      var k :| 0 <= k < |f.children[p]| && f.children[p][k] == i;
      path := prefix + [k];
      assert path[..|path| - 1] == prefix;
    }
  }

  lemma PlacesAreDistinct(records: seq<MenuSource>, s: seq<nat>, j: nat, k: nat)
    requires Within(records, s) && Stable(records, s) && j < |s| && k < |s| && s[j] == s[k]
    ensures j == k
  {
  }

  lemma SortedIsStable(records: seq<MenuSource>, s: seq<nat>)
    requires Within(records, s) && Sorted(records, s)
    ensures Stable(records, s)
  {
  }

  /** Where the path's last position is taken. */
  ghost function LastList(f: Forest, path: seq<nat>): seq<nat>
    requires Follow(f, path).Some?
  {
    if |path| == 1 then f.roots else f.children[Follow(f, path[..|path| - 1]).value]
  }

  /** The path's last position is a place in a list without repetitions. */
  ghost predicate HasPlace(records: seq<MenuSource>, f: Forest, path: seq<nat>)
    requires Follow(f, path).Some?
  {
    var list, last := LastList(f, path), path[|path| - 1];
    last < |list| && list[last] == Follow(f, path).value && Within(records, list) && Stable(records, list)
  }

  lemma {:induction false} FollowedHasPlace(records: seq<MenuSource>, f: Forest, path: seq<nat>)
    requires IsForest(records, f) && Follow(f, path).Some?
    ensures HasPlace(records, f, path)
  {
    SortedIsStable(records, f.roots);
    if |path| > 1 {
      assert ChildrenFit(records, f, Follow(f, path[..|path| - 1]).value);
    }
  }

  lemma {:induction false} SameParentPath(records: seq<MenuSource>, f: Forest, a: seq<nat>, b: seq<nat>)
    requires IsForest(records, f) && Follow(f, a).Some? && Follow(f, a) == Follow(f, b) && |a| == |b| > 1
    ensures Follow(f, a[..|a| - 1]).Some? && Follow(f, a[..|a| - 1]) == Follow(f, b[..|b| - 1])
  {
    FollowedParent(records, f, a);
    FollowedParent(records, f, b);
  }

  lemma {:induction false} SameLastStep(records: seq<MenuSource>, f: Forest, a: seq<nat>, b: seq<nat>)
    requires Follow(f, a).Some? && Follow(f, a) == Follow(f, b) && |a| == |b| && a[..|a| - 1] == b[..|b| - 1]
    requires HasPlace(records, f, a) && HasPlace(records, f, b)
    ensures a == b
  {
    PlacesAreDistinct(records, LastList(f, a), a[|a| - 1], b[|b| - 1]);
    assert a == a[..|a| - 1] + [a[|a| - 1]] && b == b[..|b| - 1] + [b[|b| - 1]];
  }

  lemma {:induction false} OnlyOnePath(records: seq<MenuSource>, f: Forest, a: seq<nat>, b: seq<nat>)
    requires IsForest(records, f) && Follow(f, a).Some? && Follow(f, a) == Follow(f, b) && |a| == |b|
    ensures a == b
    decreases |a|
  {
    if |a| > 1 {
      SameParentPath(records, f, a, b);
      OnlyOnePath(records, f, a[..|a| - 1], b[..|b| - 1]);
    }
    FollowedHasPlace(records, f, a);
    FollowedHasPlace(records, f, b);
    SameLastStep(records, f, a, b);
  }

  /** And in one place only. */
  lemma {:induction false} OnePlace(records: seq<MenuSource>, f: Forest, i: nat, a: seq<nat>, b: seq<nat>)
    requires IsForest(records, f) && i < |records| && Follow(f, a) == Some(i) && Follow(f, b) == Some(i)
    ensures a == b
  {
    FollowedIsGrounded(records, f, a);
    FollowedIsGrounded(records, f, b);
    EndsOnce(records, i, |a| - 1, |b| - 1);
    OnlyOnePath(records, f, a, b);
  }

  /** In the forest exactly when the parent chain ends; records in or below a longer cycle are nowhere. */
  lemma {:induction false} GroundedAppear(records: seq<MenuSource>, f: Forest, i: nat)
    requires IsForest(records, f) && i < |records|
    ensures Grounded(records, i) <==> exists path :: Follow(f, path) == Some(i)
  {
    if Grounded(records, i) {
      var n: nat :| Ends(records, i, n);
      var path := GroundedIsFollowed(records, f, i, n);
    }
    if path :| Follow(f, path) == Some(i) {
      FollowedIsGrounded(records, f, path);
    }
  }

  /** As deep as the chain is long. */
  lemma {:induction false} PathLengthIsDepth(records: seq<MenuSource>, f: Forest, path: seq<nat>, n: nat)
    requires IsForest(records, f) && Follow(f, path).Some? && Follow(f, path).value < |records|
    requires Ends(records, Follow(f, path).value, n)
    ensures |path| == n + 1
  {
    FollowedIsGrounded(records, f, path);
    EndsOnce(records, Follow(f, path).value, |path| - 1, n);
  }

  /** Unless records repeat an id, the result is one forest. */
  lemma ForestIsUnique(records: seq<MenuSource>, f: Forest, g: Forest, i: nat)
    requires IsForest(records, f) && IsForest(records, g) && i < |records| && Grounded(records, i)
    ensures f.roots == g.roots && f.children[i] == g.children[i]
  {
    SortedIsUnique(records, f.roots, g.roots);
    assert ChildrenFit(records, f, i) && ChildrenFit(records, g, i);
    SortedIsUnique(records, f.children[i], g.children[i]);
  }

  // ---- Nodes on the heap --------------------------------------------------------------------------

  class NavigationNode {
    ghost const index: nat
    const id: string
    const caption: string
    const href: string
    const icon: string
    const permission: Option<string>
    const sortOrder: int
    const collation: int
    var children: seq<NavigationNode>

    constructor (record: MenuSource, ghost index: nat)
      ensures this.index == index && Shows(record) && children == []
    {
      this.index := index;
      id, caption, href, icon := record.id, record.name, record.path, record.icon;
      permission := if record.requiredPermission == Some("") then None else record.requiredPermission;
      sortOrder, collation, children := record.sortOrder, record.collation, [];
    }

    /** This node's list, sorted in place. */
    method Relink(ghost records: seq<MenuSource>, ghost nodes: seq<NavigationNode>, list: seq<NavigationNode>)
      requires Linked(records, nodes) && index < |nodes| && nodes[index] == this
      requires From(nodes, list) && Siblings(records, Some(index), Indices(list)) && Sorted(records, Indices(list))
      modifies this
      ensures Linked(records, nodes) && old(Tidy(records, nodes)) + {index} <= Tidy(records, nodes)
    {
      SortedIsStable(records, Indices(list));
      children := list;
    }

    ghost predicate Shows(record: MenuSource) {
      && id == record.id && caption == record.name && href == record.path && icon == record.icon
      && sortOrder == record.sortOrder && collation == record.collation
      && permission == if record.requiredPermission == Some("") then None else record.requiredPermission
    }
  }

  function ByOrder(left: NavigationNode, right: NavigationNode): int {
    if left.sortOrder != right.sortOrder then left.sortOrder - right.sortOrder else left.collation - right.collation
  }

  /** One node for each record. */
  ghost predicate Built(records: seq<MenuSource>, nodes: seq<NavigationNode>) {
    && |nodes| == |records|
    && forall i :: 0 <= i < |nodes| ==> nodes[i].index == i && nodes[i].Shows(records[i])
  }

  ghost predicate From(nodes: seq<NavigationNode>, list: seq<NavigationNode>) {
    forall k :: 0 <= k < |list| ==> list[k].index < |nodes| && nodes[list[k].index] == list[k]
  }

  ghost function Indices(list: seq<NavigationNode>): (r: seq<nat>)
    ensures |r| == |list| && forall k :: 0 <= k < |list| ==> r[k] == list[k].index
  {
    seq(|list|, k requires 0 <= k < |list| => list[k].index)
  }

  ghost function ForestOf(roots: seq<NavigationNode>, nodes: seq<NavigationNode>): (f: Forest)
    reads nodes
    ensures f.roots == Indices(roots) && |f.children| == |nodes|
    ensures forall i :: 0 <= i < |nodes| ==> f.children[i] == Indices(nodes[i].children)
  {
    Forest(Indices(roots), seq(|nodes|, i requires 0 <= i < |nodes| reads nodes => Indices(nodes[i].children)))
  }

  /** Every node's list is its record's children, in some stable order. */
  ghost predicate Linked(records: seq<MenuSource>, nodes: seq<NavigationNode>)
    reads nodes
  {
    && Built(records, nodes)
    && forall i :: 0 <= i < |nodes| ==>
         && From(nodes, nodes[i].children)
         && Siblings(records, Some(i), Indices(nodes[i].children))
         && Stable(records, Indices(nodes[i].children))
  }

  ghost function Tidy(records: seq<MenuSource>, nodes: seq<NavigationNode>): set<nat>
    requires Linked(records, nodes)
    reads nodes
  {
    set i | 0 <= i < |nodes| && Sorted(records, Indices(nodes[i].children))
  }

  ghost predicate IsUnder(records: seq<MenuSource>, i: nat, top: nat)
    requires i < |records|
  {
    exists k: nat :: Up(records, i, k) == Some(top)
  }

  /** top and its descendants. */
  ghost function Under(records: seq<MenuSource>, top: nat): set<nat> {
    set i | 0 <= i < |records| && IsUnder(records, i, top)
  }

  lemma UnderIsUnderChild(records: seq<MenuSource>, i: nat, top: nat)
    requires i < |records| && i in Under(records, top) && i != top
    ensures exists c :: 0 <= c < |records| && Parent(records, c) == Some(top) && i in Under(records, c)
  {
    var k: nat :| Up(records, i, k) == Some(top);
    var c := Up(records, i, k - 1).value;
    assert IsUnder(records, i, c);
  }

  // ---- Sorting the tree ---------------------------------------------------------------------------

  /** items.sort(byOrder); JavaScript's sort is stable. */
  method Sort(ghost records: seq<MenuSource>, ghost nodes: seq<NavigationNode>, items: seq<NavigationNode>)
    returns (sorted: seq<NavigationNode>)
    requires Built(records, nodes) && From(nodes, items) && Stable(records, Indices(items))
    ensures From(nodes, sorted) && Sorted(records, Indices(sorted))
    ensures SameElements(Indices(items), Indices(sorted))
  {
    sorted := [];
    for i := 0 to |items|
      invariant From(nodes, sorted) && Sorted(records, Indices(sorted))
      invariant SameElements(Indices(items[..i]), Indices(sorted))
    {
      var k := |sorted|;
      while k > 0 && ByOrder(items[i], sorted[k - 1]) < 0
        invariant 0 <= k <= |sorted|
        invariant forall j :: k <= j < |sorted| ==> Before(records, items[i].index, sorted[j].index)
      {
        k := k - 1;
      }
      FitsAt(records, Indices(items), i, Indices(sorted), k);
      InsertedAt(records, nodes, sorted, items[i], k);
      ghost var before := sorted;
      sorted := sorted[..k] + [items[i]] + sorted[k..];
      SameAfterInsert(items, i, before, sorted, k);
    }
    assert items[..|items|] == items;
  }

  /** Everything before place k goes before the newcomer, since ties came earlier. */
  lemma FitsAt(records: seq<MenuSource>, items: seq<nat>, i: nat, sorted: seq<nat>, k: nat)
    requires Within(records, items) && Stable(records, items) && i < |items|
    requires Within(records, sorted) && Sorted(records, sorted) && SameElements(items[..i], sorted)
    requires k <= |sorted| && (k > 0 ==> !Less(records[items[i]], records[sorted[k - 1]]))
    ensures forall j :: 0 <= j < k ==> Before(records, sorted[j], items[i])
  {
    if k > 0 {
      var last := sorted[k - 1];
      assert last in items[..i];
      var m :| 0 <= m < i && items[m] == last;
      assert Before(records, last, items[i]);
      forall j | 0 <= j < k ensures Before(records, sorted[j], items[i]) {
        if j < k - 1 {
          assert Before(records, sorted[j], last);
        }
      }
    }
  }

  lemma InsertedAt(records: seq<MenuSource>, nodes: seq<NavigationNode>, sorted: seq<NavigationNode>, x: NavigationNode,
                   k: nat)
    requires Built(records, nodes) && From(nodes, sorted) && From(nodes, [x]) && k <= |sorted|
    requires Sorted(records, Indices(sorted))
    requires x.index < |records| && forall j :: 0 <= j < k ==> Before(records, Indices(sorted)[j], x.index)
    requires forall j :: k <= j < |sorted| ==> Before(records, x.index, sorted[j].index)
    ensures From(nodes, sorted[..k] + [x] + sorted[k..])
    ensures Sorted(records, Indices(sorted[..k] + [x] + sorted[k..]))
  {
  }

  lemma SameAfterInsert(items: seq<NavigationNode>, i: nat, before: seq<NavigationNode>, after: seq<NavigationNode>,
                        k: nat)
    requires i < |items| && k <= |before| && after == before[..k] + [items[i]] + before[k..]
    requires SameElements(Indices(items[..i]), Indices(before))
    ensures SameElements(Indices(items[..i + 1]), Indices(after))
  {
    assert Indices(items[..i + 1]) == Indices(items[..i]) + [items[i].index];
    assert Indices(after) == Indices(before)[..k] + [items[i].index] + Indices(before)[k..];
    assert Indices(before) == Indices(before)[..k] + Indices(before)[k..];
  }

  lemma ResortedStaysLinked(records: seq<MenuSource>, p: Option<nat>, s: seq<nat>, t: seq<nat>)
    requires Siblings(records, p, s) && SameElements(s, t) && Within(records, t) && Sorted(records, t)
    ensures Siblings(records, p, t) && Stable(records, t)
  {
    SortedIsStable(records, t);
    forall k | 0 <= k < |t| ensures Parent(records, t[k]) == p {
      assert t[k] in s;
    }
  }

  /** Sort a sibling list, then the lists below it. `depth` is how far below the roots the list hangs. */
  method SortTree(ghost records: seq<MenuSource>, ghost nodes: seq<NavigationNode>, items: seq<NavigationNode>,
                  ghost depth: nat)
    returns (sorted: seq<NavigationNode>)
    requires Linked(records, nodes) && From(nodes, items) && Stable(records, Indices(items))
    requires depth <= |records| && forall k :: 0 <= k < |items| ==> Ends(records, items[k].index, depth)
    modifies nodes
    ensures Linked(records, nodes) && old(Tidy(records, nodes)) <= Tidy(records, nodes)
    ensures From(nodes, sorted) && Sorted(records, Indices(sorted)) && SameElements(Indices(items), Indices(sorted))
    ensures Covered(records, Indices(items), Tidy(records, nodes))
    decreases |records| - depth, 2
  {
    sorted := Sort(records, nodes, items);
    assert forall k :: 0 <= k < |sorted| ==> Indices(sorted)[k] in Indices(items);
    SortEach(records, nodes, sorted, depth);
    assert Covered(records, Indices(items), Tidy(records, nodes));
  }

  /** The records of the list and everything below them. */
  ghost predicate Covered(records: seq<MenuSource>, list: seq<nat>, tidy: set<nat>) {
    forall x :: x in list ==> Under(records, x) <= tidy
  }

  lemma CoveredToo(records: seq<MenuSource>, list: seq<nat>, i: nat, less: set<nat>, tidy: set<nat>)
    requires i < |list| && Covered(records, list[..i], less) && less <= tidy && Under(records, list[i]) <= tidy
    ensures Covered(records, list[..i + 1], tidy)
  {
    assert list[..i + 1] == list[..i] + [list[i]];
  }

  method SortEach(ghost records: seq<MenuSource>, ghost nodes: seq<NavigationNode>, items: seq<NavigationNode>,
                  ghost depth: nat)
    requires Linked(records, nodes) && From(nodes, items)
    requires depth <= |records| && forall k :: 0 <= k < |items| ==> Ends(records, items[k].index, depth)
    modifies nodes
    ensures Linked(records, nodes) && old(Tidy(records, nodes)) <= Tidy(records, nodes)
    ensures Covered(records, Indices(items), Tidy(records, nodes))
    decreases |records| - depth, 1
  {
    ghost var list := Indices(items);
    ghost var tidy := Tidy(records, nodes);
    for i := 0 to |items|
      invariant Linked(records, nodes) && old(Tidy(records, nodes)) <= tidy == Tidy(records, nodes)
      invariant Covered(records, list[..i], tidy)
    {
      ghost var less := tidy;
      SortBelow(records, nodes, items[i], depth);
      tidy := Tidy(records, nodes);
      CoveredToo(records, list, i, less, tidy);
    }
    assert list[..|items|] == list;
  }

  method SortBelow(ghost records: seq<MenuSource>, ghost nodes: seq<NavigationNode>, item: NavigationNode,
                   ghost depth: nat)
    requires Linked(records, nodes) && From(nodes, [item])
    requires item.index < |records| && Ends(records, item.index, depth)
    modifies nodes
    ensures Linked(records, nodes) && old(Tidy(records, nodes)) <= Tidy(records, nodes)
    ensures Under(records, item.index) <= Tidy(records, nodes)
    decreases |records| - depth, 0
  {
    assert item == [item][0];
    DepthIsBounded(records, item.index, depth);
    ghost var list := Indices(item.children);
    ChildrenAreDeeper(records, item.index, list, depth);
    var children := SortTree(records, nodes, item.children, depth + 1);
    ResortedStaysLinked(records, Some(item.index), list, Indices(children));
    item.Relink(records, nodes, children);
    assert Covered(records, list, Tidy(records, nodes));
    AllUnder(records, item.index, list, Tidy(records, nodes));
  }

  lemma AllUnder(records: seq<MenuSource>, top: nat, list: seq<nat>, tidy: set<nat>)
    requires top in tidy && Siblings(records, Some(top), list)
    requires Covered(records, list, tidy)
    ensures Under(records, top) <= tidy
  {
    forall i | i in Under(records, top) ensures i in tidy {
      if i != top {
        UnderIsUnderChild(records, i, top);
        var c :| 0 <= c < |records| && Parent(records, c) == Some(top) && i in Under(records, c);
        assert c in list;
      }
    }
  }

  lemma ChildrenAreDeeper(records: seq<MenuSource>, p: nat, children: seq<nat>, depth: nat)
    requires p < |records| && Ends(records, p, depth) && Siblings(records, Some(p), children)
    ensures forall k :: 0 <= k < |children| ==> Ends(records, children[k], depth + 1)
  {
    forall k | 0 <= k < |children| ensures Ends(records, children[k], depth + 1) {
      EndsFromParent(records, children[k], depth + 1);
    }
  }

  // ---- buildNavigationTree -------------------------------------------------------------------------

  /** The children of p among the first n records, in record order. */
  ghost predicate HoldsFirst(records: seq<MenuSource>, p: Option<nat>, n: nat, s: seq<nat>)
    requires n <= |records|
  {
    && InRecordOrder(s)
    && (forall k :: 0 <= k < |s| ==> s[k] < n && Parent(records, s[k]) == p)
    && (forall j :: 0 <= j < n && Parent(records, j) == p ==> j in s)
  }

  lemma OneMore(records: seq<MenuSource>, n: nat, s: seq<nat>)
    requires n < |records| && HoldsFirst(records, Parent(records, n), n, s)
    ensures HoldsFirst(records, Parent(records, n), n + 1, s + [n])
  {
    forall j | 0 <= j < n + 1 && Parent(records, j) == Parent(records, n) ensures j in s + [n] {
      assert (s + [n])[|s|] == n;
      if j < n {
        assert j in s;
      }
    }
  }

  lemma NoneMore(records: seq<MenuSource>, p: Option<nat>, n: nat, s: seq<nat>)
    requires n < |records| && HoldsFirst(records, p, n, s) && Parent(records, n) != p
    ensures HoldsFirst(records, p, n + 1, s)
  {
  }

  lemma AllSiblings(records: seq<MenuSource>, p: Option<nat>, s: seq<nat>)
    requires HoldsFirst(records, p, |records|, s)
    ensures Siblings(records, p, s) && Stable(records, s)
  {
  }

  /** What the map of the first i nodes answers. */
  ghost predicate Maps(records: seq<MenuSource>, nodes: seq<NavigationNode>, byId: map<string, NavigationNode>) {
    && |nodes| <= |records|
    && (forall id :: id in byId <==> IndexOf(records[..|nodes|], id).Some?)
    && (forall id :: id in byId ==> byId[id] == nodes[IndexOf(records[..|nodes|], id).value])
  }

  ghost predicate LinkedUpTo(records: seq<MenuSource>, nodes: seq<NavigationNode>, n: nat)
    requires n <= |records|
    reads nodes
  {
    && Built(records, nodes)
    && forall q :: 0 <= q < |nodes| ==>
         From(nodes, nodes[q].children) && HoldsFirst(records, Some(q), n, Indices(nodes[q].children))
  }

  lemma MapsOneMore(records: seq<MenuSource>, nodes: seq<NavigationNode>, byId: map<string, NavigationNode>,
                    node: NavigationNode)
    requires Maps(records, nodes, byId) && |nodes| < |records|
    ensures Maps(records, nodes + [node], byId[records[|nodes|].id := node])
  {
    assert records[..|nodes| + 1][..|nodes|] == records[..|nodes|];
  }

  method MakeNodes(records: seq<MenuSource>)
    returns (byId: map<string, NavigationNode>, ghost nodes: seq<NavigationNode>)
    ensures fresh(nodes) && LinkedUpTo(records, nodes, 0) && Maps(records, nodes, byId)
  {
    byId, nodes := map[], [];
    for i := 0 to |records|
      invariant fresh(nodes) && |nodes| == i && Maps(records, nodes, byId)
      invariant forall k :: 0 <= k < i ==> nodes[k].index == k && nodes[k].Shows(records[k]) && nodes[k].children == []
    {
      var node := new NavigationNode(records[i], i);
      MapsOneMore(records, nodes, byId, node);
      byId := byId[records[i].id := node];
      nodes := nodes + [node];
    }
  }

  /** Looking up record i and its parent finds their nodes; the lookup of a root finds no other node. */
  ghost predicate Answers(records: seq<MenuSource>, nodes: seq<NavigationNode>, byId: map<string, NavigationNode>,
                          i: nat)
    requires i < |records| == |nodes|
  {
    var parentId := records[i].parentId;
    && records[i].id in byId && byId[records[i].id] == nodes[i]
    && if parentId.Some? && parentId.value != "" && parentId.value in byId && byId[parentId.value] != nodes[i]
       then Parent(records, i).Some? && byId[parentId.value] == nodes[Parent(records, i).value]
       else Parent(records, i).None?
  }

  lemma MapAnswers(records: seq<MenuSource>, nodes: seq<NavigationNode>, byId: map<string, NavigationNode>)
    requires UniqueIds(records) && Built(records, nodes) && Maps(records, nodes, byId)
    ensures forall i :: 0 <= i < |records| ==> Answers(records, nodes, byId, i)
  {
    assert records[..|records|] == records;
    forall i | 0 <= i < |records| ensures Answers(records, nodes, byId, i) {
      OwnIndex(records, i);
    }
  }

  ghost predicate RootsUpTo(records: seq<MenuSource>, nodes: seq<NavigationNode>, roots: seq<NavigationNode>, n: nat)
    requires n <= |records|
  {
    From(nodes, roots) && HoldsFirst(records, None, n, Indices(roots))
  }

  /** The linking loop pushes each node onto its parent's list, or onto the roots. */
  method Link(records: seq<MenuSource>, byId: map<string, NavigationNode>, ghost nodes: seq<NavigationNode>)
    returns (roots: seq<NavigationNode>)
    requires LinkedUpTo(records, nodes, 0) && forall i :: 0 <= i < |records| ==> Answers(records, nodes, byId, i)
    modifies nodes
    ensures LinkedUpTo(records, nodes, |records|) && RootsUpTo(records, nodes, roots, |records|)
  {
    roots := [];
    for i := 0 to |records|
      invariant LinkedUpTo(records, nodes, i) && RootsUpTo(records, nodes, roots, i)
    {
      roots := LinkOne(records, byId, nodes, roots, i);
    }
  }

  method LinkOne(records: seq<MenuSource>, byId: map<string, NavigationNode>, ghost nodes: seq<NavigationNode>,
                 roots: seq<NavigationNode>, i: nat)
    returns (after: seq<NavigationNode>)
    requires i < |records| && LinkedUpTo(records, nodes, i) && RootsUpTo(records, nodes, roots, i)
    requires Answers(records, nodes, byId, i)
    modifies nodes
    ensures LinkedUpTo(records, nodes, i + 1) && RootsUpTo(records, nodes, after, i + 1)
  {
    var node := byId[records[i].id];
    var parentId := records[i].parentId;
    if parentId.Some? && parentId.value != "" && parentId.value in byId && byId[parentId.value] != node {
      Push(records, nodes, byId[parentId.value], node, i);
      NoRoot(records, nodes, roots, i);
      after := roots;
    } else {
      RootPushed(records, nodes, roots, i);
      NothingPushed(records, nodes, i);
      after := roots + [node];
    }
  }

  /** parent.children.push(node) */
  method Push(ghost records: seq<MenuSource>, ghost nodes: seq<NavigationNode>, parent: NavigationNode,
              node: NavigationNode, ghost i: nat)
    requires i < |records| && LinkedUpTo(records, nodes, i)
    requires node == nodes[i] && Parent(records, i).Some? && parent == nodes[Parent(records, i).value]
    modifies nodes
    ensures LinkedUpTo(records, nodes, i + 1)
  {
    ghost var list := Indices(parent.children);
    OneMore(records, i, list);
    forall q | 0 <= q < |nodes| && q != parent.index
      ensures HoldsFirst(records, Some(q), i + 1, Indices(nodes[q].children))
    {
      NoneMore(records, Some(q), i, Indices(nodes[q].children));
    }
    parent.children := parent.children + [node];
    assert Indices(parent.children) == list + [i];
  }

  lemma NothingPushed(records: seq<MenuSource>, nodes: seq<NavigationNode>, i: nat)
    requires i < |records| && LinkedUpTo(records, nodes, i) && Parent(records, i).None?
    ensures LinkedUpTo(records, nodes, i + 1)
  {
    forall q | 0 <= q < |nodes| ensures HoldsFirst(records, Some(q), i + 1, Indices(nodes[q].children)) {
      NoneMore(records, Some(q), i, Indices(nodes[q].children));
    }
  }

  lemma NoRoot(records: seq<MenuSource>, nodes: seq<NavigationNode>, roots: seq<NavigationNode>, i: nat)
    requires i < |records| && RootsUpTo(records, nodes, roots, i) && Parent(records, i).Some?
    ensures RootsUpTo(records, nodes, roots, i + 1)
  {
    NoneMore(records, None, i, Indices(roots));
  }

  lemma RootPushed(records: seq<MenuSource>, nodes: seq<NavigationNode>, roots: seq<NavigationNode>, i: nat)
    requires i < |records| && Built(records, nodes) && RootsUpTo(records, nodes, roots, i) && Parent(records, i).None?
    ensures RootsUpTo(records, nodes, roots + [nodes[i]], i + 1)
  {
    OneMore(records, i, Indices(roots));
    assert Indices(roots + [nodes[i]]) == Indices(roots) + [i];
  }

  lemma LinkedInRecordOrder(records: seq<MenuSource>, nodes: seq<NavigationNode>)
    requires LinkedUpTo(records, nodes, |records|)
    ensures Linked(records, nodes)
  {
    forall q | 0 <= q < |nodes|
      ensures Siblings(records, Some(q), Indices(nodes[q].children)) && Stable(records, Indices(nodes[q].children))
    {
      AllSiblings(records, Some(q), Indices(nodes[q].children));
    }
  }

  /** One node for each record, and the lists that hang from the returned roots form the forest of the records. */
  method BuildNavigationTree(records: seq<MenuSource>)
    returns (roots: seq<NavigationNode>, ghost nodes: seq<NavigationNode>)
    requires UniqueIds(records)
    ensures fresh(nodes) && Built(records, nodes) && From(nodes, roots)
    ensures forall i :: 0 <= i < |nodes| ==> From(nodes, nodes[i].children)
    ensures IsForest(records, ForestOf(roots, nodes))
  {
    var byId;
    byId, nodes := MakeNodes(records);
    MapAnswers(records, nodes, byId);
    roots := Link(records, byId, nodes);
    LinkedInRecordOrder(records, nodes);
    ghost var list := Indices(roots);
    AllSiblings(records, None, list);
    RootsEnd(records, list);
    roots := SortTree(records, nodes, roots, 0);
    ResortedStaysLinked(records, None, list, Indices(roots));
    assert Covered(records, list, Tidy(records, nodes));
    GroundedAreCovered(records, list, Tidy(records, nodes));
  }

  lemma RootsEnd(records: seq<MenuSource>, list: seq<nat>)
    requires Siblings(records, None, list)
    ensures forall k :: 0 <= k < |list| ==> Ends(records, list[k], 0)
  {
  }

  lemma GroundedAreCovered(records: seq<MenuSource>, roots: seq<nat>, tidy: set<nat>)
    requires Siblings(records, None, roots) && Covered(records, roots, tidy)
    ensures forall i :: 0 <= i < |records| && Grounded(records, i) ==> i in tidy
  {
    forall i | 0 <= i < |records| && Grounded(records, i) ensures i in tidy {
      var n: nat :| Ends(records, i, n);
      var root := Up(records, i, n).value;
      assert IsUnder(records, i, root) && root in roots;
    }
  }

  // ---- getNavigation ------------------------------------------------------------------------------

  predicate Permits(codes: set<string>, item: MenuSource) {
    || item.requiredPermission.None? || item.requiredPermission.value == ""
    || "*" in codes || item.requiredPermission.value in codes
  }

  function Filter(menus: seq<MenuSource>, codes: set<string>): (r: seq<MenuSource>)
    ensures forall m :: m in r <==> m in menus && Permits(codes, m)
  {
    if menus == [] then []
    else
      var rest, last := Filter(menus[..|menus| - 1], codes), menus[|menus| - 1];
      assert menus == menus[..|menus| - 1] + [last];
      if Permits(codes, last) then rest + [last] else rest
  }

  lemma {:induction false} FilterKeepsIdsUnique(menus: seq<MenuSource>, codes: set<string>)
    requires UniqueIds(menus)
    ensures UniqueIds(Filter(menus, codes))
  {
    if menus != [] {
      var prefix, last := menus[..|menus| - 1], menus[|menus| - 1];
      FilterKeepsIdsUnique(prefix, codes);
      forall k | 0 <= k < |Filter(prefix, codes)| ensures Filter(prefix, codes)[k].id != last.id {
        assert Filter(prefix, codes)[k] in prefix;
      }
    }
  }

  function Clear(item: MenuSource, allowed: set<string>): MenuSource {
    if item.parentId.Some? && item.parentId.value != "" && item.parentId.value in allowed
    then item else item.(parentId := None)
  }

  /** What the tree depends on. */
  ghost predicate SameShape(a: seq<MenuSource>, b: seq<MenuSource>) {
    && |a| == |b|
    && forall i :: 0 <= i < |a| ==>
         a[i].sortOrder == b[i].sortOrder && a[i].collation == b[i].collation && Parent(a, i) == Parent(b, i)
  }

  lemma {:induction false} SameUp(a: seq<MenuSource>, b: seq<MenuSource>, i: nat, k: nat)
    requires SameShape(a, b) && i < |a|
    ensures Up(a, i, k) == Up(b, i, k)
  {
    if k > 0 {
      SameUp(a, b, i, k - 1);
    }
  }

  lemma SameForest(a: seq<MenuSource>, b: seq<MenuSource>, f: Forest)
    requires SameShape(a, b) && IsForest(a, f)
    ensures IsForest(b, f)
  {
    forall i | 0 <= i < |b| ensures ChildrenFit(b, f, i) {
      assert ChildrenFit(a, f, i);
      SameOrder(a, b, Some(i), f.children[i]);
      if Grounded(b, i) {
        SameGrounded(a, b, i);
      }
    }
    SameOrder(a, b, None, f.roots);
  }

  lemma SameGrounded(a: seq<MenuSource>, b: seq<MenuSource>, i: nat)
    requires SameShape(a, b) && i < |b| && Grounded(b, i)
    ensures Grounded(a, i)
  {
    var n: nat :| Ends(b, i, n);
    SameUp(a, b, i, n);
    assert Ends(a, i, n);
  }

  lemma SameOrder(a: seq<MenuSource>, b: seq<MenuSource>, p: Option<nat>, s: seq<nat>)
    requires SameShape(a, b) && Siblings(a, p, s)
    ensures Siblings(b, p, s)
    ensures Sorted(a, s) ==> Sorted(b, s)
    ensures Stable(a, s) ==> Stable(b, s)
  {
  }

  lemma {:induction false} SameIndex(a: seq<MenuSource>, b: seq<MenuSource>, id: string)
    requires |a| == |b| && forall i :: 0 <= i < |a| ==> a[i].id == b[i].id
    ensures IndexOf(a, id) == IndexOf(b, id)
  {
    if a != [] {
      SameIndex(a[..|a| - 1], b[..|b| - 1], id);
    }
  }

  /** The tree already makes a root of a menu whose parent is not there. */
  lemma ClearingChangesNothing(records: seq<MenuSource>, cleared: seq<MenuSource>, ids: set<string>)
    requires |cleared| == |records| && forall i :: 0 <= i < |records| ==> cleared[i] == Clear(records[i], ids)
    requires forall id :: id in ids <==> IndexOf(records, id).Some?
    ensures SameShape(cleared, records)
  {
    forall i | 0 <= i < |records| ensures Parent(cleared, i) == Parent(records, i) {
      if records[i].parentId.Some? {
        SameIndex(cleared, records, records[i].parentId.value);
      }
    }
  }

  /** The permitted menus form their own forest; below a group that is not permitted they become roots. */
  method GetNavigation(menus: seq<MenuSource>, codes: set<string>)
    returns (roots: seq<NavigationNode>, ghost nodes: seq<NavigationNode>)
    requires UniqueIds(menus)
    ensures fresh(nodes) && Built(Filter(menus, codes), nodes) && From(nodes, roots)
    ensures forall i :: 0 <= i < |nodes| ==> From(nodes, nodes[i].children)
    ensures IsForest(Filter(menus, codes), ForestOf(roots, nodes))
  {
    var allowed := Filter(menus, codes);
    FilterKeepsIdsUnique(menus, codes);
    var ids := Ids(allowed);
    var cleared := ClearAll(allowed, ids);
    ClearedStaysUnique(allowed, cleared, ids);
    roots, nodes := BuildNavigationTree(cleared);
    ClearingChangesNothing(allowed, cleared, ids);
    SameForest(cleared, allowed, ForestOf(roots, nodes));
    ShowsAllowed(allowed, cleared, ids, nodes);
  }

  function Ids(records: seq<MenuSource>): (ids: set<string>)
    ensures forall id :: id in ids <==> IndexOf(records, id).Some?
  {
    set i | 0 <= i < |records| :: records[i].id
  }

  function ClearAll(records: seq<MenuSource>, ids: set<string>): (r: seq<MenuSource>)
    ensures |r| == |records| && forall i :: 0 <= i < |records| ==> r[i] == Clear(records[i], ids)
  {
    seq(|records|, i requires 0 <= i < |records| => Clear(records[i], ids))
  }

  lemma ClearedStaysUnique(records: seq<MenuSource>, cleared: seq<MenuSource>, ids: set<string>)
    requires UniqueIds(records) && |cleared| == |records|
    requires forall i :: 0 <= i < |records| ==> cleared[i] == Clear(records[i], ids)
    ensures UniqueIds(cleared)
  {
  }

  /** Nodes do not show parents. */
  lemma ShowsAllowed(records: seq<MenuSource>, cleared: seq<MenuSource>, ids: set<string>, nodes: seq<NavigationNode>)
    requires |cleared| == |records| && Built(cleared, nodes)
    requires forall i :: 0 <= i < |records| ==> cleared[i] == Clear(records[i], ids)
    ensures Built(records, nodes)
  {
  }
}
