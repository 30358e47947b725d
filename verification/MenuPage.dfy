/** The menu page's indentation depths, and how they relate to the navigation tree. */
module MenuPage {
  import opened Common
  import opened Navigation

  /** new Map(menus.map(item => [item.id, item])) */
  function ById(menus: seq<MenuSource>): map<string, MenuSource> {
    if menus == [] then map[] else ById(menus[..|menus| - 1])[menus[|menus| - 1].id := menus[|menus| - 1]]
  }

  ghost predicate Keyed(byId: map<string, MenuSource>) {
    forall id :: id in byId ==> byId[id].id == id
  }

  lemma {:induction false} ByIdFindsTheLast(menus: seq<MenuSource>)
    ensures Keyed(ById(menus))
    ensures forall id :: id in ById(menus) <==> IndexOf(menus, id).Some?
    ensures forall id :: id in ById(menus) ==> ById(menus)[id] == menus[IndexOf(menus, id).value]
  {
    if menus != [] {
      ByIdFindsTheLast(menus[..|menus| - 1]);
    }
  }

  /** Each step adds a known id to the trail, so the recursion ends on any parent links. */
  function Depth(byId: map<string, MenuSource>, item: MenuSource, trail: set<string>): nat
    requires Keyed(byId) && item.id in byId
    decreases byId.Keys - trail
  {
    if item.parentId.None? || item.parentId.value == "" || item.id in trail then 0
    else if item.parentId.value !in byId then 0
    else
      assert item.id in byId.Keys - trail;
      1 + Depth(byId, byId[item.parentId.value], trail + {item.id})
  }

  /** However the links run, no depth exceeds the number of menus. */
  lemma {:induction false} DepthIsAtMostTheMenus(byId: map<string, MenuSource>, item: MenuSource, trail: set<string>)
    requires Keyed(byId) && item.id in byId
    ensures Depth(byId, item, trail) <= |byId.Keys - trail|
    decreases byId.Keys - trail
  {
    if item.id !in trail && item.parentId.Some? && item.parentId.value in byId {
      assert item.id in byId.Keys - trail;
      DepthIsAtMostTheMenus(byId, byId[item.parentId.value], trail + {item.id});
      assert byId.Keys - (trail + {item.id}) == (byId.Keys - trail) - {item.id};
    }
  }

  ghost predicate IsOwnParent(record: MenuSource) {
    record.parentId == Some(record.id) && record.id != ""
  }

  lemma DepthOfRoot(menus: seq<MenuSource>, i: nat, trail: set<string>)
    requires UniqueIds(menus) && i < |menus| && Parent(menus, i).None? && menus[i].id !in trail
    ensures Keyed(ById(menus)) && menus[i].id in ById(menus)
    ensures Depth(ById(menus), menus[i], trail) == if IsOwnParent(menus[i]) then 1 else 0
  {
    ByIdFindsTheLast(menus);
    OwnIndex(menus, i);
  }

  lemma DepthOfChild(menus: seq<MenuSource>, i: nat, p: nat, trail: set<string>)
    requires UniqueIds(menus) && i < |menus| && Parent(menus, i) == Some(p) && menus[i].id !in trail
    ensures Keyed(ById(menus)) && menus[i].id in ById(menus) && menus[p].id in ById(menus)
    ensures Depth(ById(menus), menus[i], trail) == 1 + Depth(ById(menus), menus[p], trail + {menus[i].id})
  {
    ByIdFindsTheLast(menus);
    OwnIndex(menus, i);
    OwnIndex(menus, p);
  }

  lemma ChainBelow(menus: seq<MenuSource>, i: nat, p: nat, n: nat, trail: set<string>)
    requires UniqueIds(menus) && i < |menus| && p < |menus| && n > 0 && Ends(menus, i, n)
    requires Parent(menus, i) == Some(p) && Ends(menus, p, n - 1) && i !in Chain(menus, p, n - 1)
    requires ChainOffTrail(menus, i, n, trail)
    ensures ChainOffTrail(menus, p, n - 1, trail + {menus[i].id})
  {
    assert Chain(menus, i, n) == {i} + Chain(menus, p, n - 1);
  }

  /** What the root of the chain adds. */
  ghost function Extra(menus: seq<MenuSource>, i: nat, n: nat): nat
    requires i < |menus| && Ends(menus, i, n)
  {
    if IsOwnParent(menus[Up(menus, i, n).value]) then 1 else 0
  }

  lemma SameExtra(menus: seq<MenuSource>, i: nat, p: nat, n: nat)
    requires i < |menus| && p < |menus| && n > 0 && Parent(menus, i) == Some(p)
    requires Ends(menus, i, n) && Ends(menus, p, n - 1)
    ensures Extra(menus, i, n) == Extra(menus, p, n - 1)
  {
    UpFromParent(menus, i, n - 1);
  }

  ghost predicate ChainOffTrail(menus: seq<MenuSource>, i: nat, n: nat, trail: set<string>)
    requires i < |menus| && Ends(menus, i, n)
  {
    forall j :: j in Chain(menus, i, n) && j < |menus| ==> menus[j].id !in trail
  }

  lemma {:induction false} DepthAlongChain(menus: seq<MenuSource>, i: nat, n: nat, trail: set<string>)
    requires UniqueIds(menus) && i < |menus| && Ends(menus, i, n) && ChainOffTrail(menus, i, n, trail)
    ensures Keyed(ById(menus)) && menus[i].id in ById(menus)
    ensures Depth(ById(menus), menus[i], trail) == n + Extra(menus, i, n)
    decreases n
  {
    EndsFromParent(menus, i, n);
    assert i in Chain(menus, i, n);
    if n == 0 {
      DepthOfRoot(menus, i, trail);
    } else {
      var p := Parent(menus, i).value;
      SameExtra(menus, i, p, n);
      NotOnOwnChain(menus, i, p, n);
      DepthOfChild(menus, i, p, trail);
      ChainBelow(menus, i, p, n, trail);
      DepthAlongChain(menus, p, n - 1, trail + {menus[i].id});
    }
  }

  /**
   The page indents a menu of the navigation tree by its depth there, one more if
   the root of its chain names itself as parent.
   */
  lemma DepthIsTreeDepth(menus: seq<MenuSource>, f: Forest, path: seq<nat>)
    requires UniqueIds(menus) && IsForest(menus, f)
    requires Follow(f, path).Some? && Follow(f, path).value < |menus|
    ensures var i := Follow(f, path).value;
            && Ends(menus, i, |path| - 1) && Keyed(ById(menus)) && menus[i].id in ById(menus)
            && (Depth(ById(menus), menus[i], {}) == |path| - 1 <==> !IsOwnParent(menus[Up(menus, i, |path| - 1).value]))
  {
    var i := Follow(f, path).value;
    FollowedIsGrounded(menus, f, path);
    ByIdFindsTheLast(menus);
    OwnIndex(menus, i);
    DepthAlongChain(menus, i, |path| - 1, {});
  }

  method DepthById(menus: seq<MenuSource>) returns (depths: map<string, nat>)
    ensures Keyed(ById(menus))
    ensures forall id :: id in depths <==> id in ById(menus)
    ensures forall id :: id in depths ==> depths[id] == Depth(ById(menus), ById(menus)[id], {})
  {
    ByIdFindsTheLast(menus);
    var byId := ById(menus);
    depths := map[];
    for i := 0 to |menus|
      invariant forall id :: id in depths <==> IndexOf(menus[..i], id).Some?
      invariant forall id :: id in depths ==>
                  id in byId && menus[IndexOf(menus[..i], id).value].id in byId
                  && depths[id] == Depth(byId, menus[IndexOf(menus[..i], id).value], {})
    {
      assert menus[..i + 1][..i] == menus[..i];
      depths := depths[menus[i].id := Depth(byId, menus[i], {})];
    }
    assert menus[..|menus|] == menus;
  }

  /** A root that names itself as its parent stands at the top of the forest, and the page indents it by one. */
  lemma SelfParentIsIndented(menu: MenuSource) returns (f: Forest)
    requires menu.id != "" && menu.parentId == Some(menu.id)
    ensures UniqueIds([menu]) && IsForest([menu], f) && Follow(f, [0]) == Some(0)
    ensures Keyed(ById([menu])) && menu.id in ById([menu]) && Depth(ById([menu]), menu, {}) == 1
  {
    f := Forest([0], [[]]);
    var menus := [menu];
    OwnIndex(menus, 0);
    assert Parent(menus, 0).None? && ChildrenFit(menus, f, 0);
    DepthOfRoot(menus, 0, {});
  }
}
