/** The navigation in the columns of its records: who is whose parent, who goes first, who sees what. */
module NavigationColumns {
  import opened Common
  import opened Navigation

  /** With unique ids, the parent is the record whose id is named; nobody is its own parent. */
  lemma ParentColumns(records: seq<MenuSource>, i: nat, p: nat)
    requires UniqueIds(records) && i < |records| && p < |records|
    ensures Parent(records, i) == Some(p) <==>
            i != p && records[p].id != "" && records[i].parentId == Some(records[p].id)
  {
    OwnIndex(records, p);
  }

  /** Siblings go by sort order, then by name, then by the place of the record. */
  lemma SiblingColumns(records: seq<MenuSource>, list: seq<nat>, j: nat, k: nat)
    requires Within(records, list) && Sorted(records, list) && j < k < |list|
    ensures var a, b := records[list[j]], records[list[k]];
            && a.sortOrder <= b.sortOrder
            && (a.sortOrder == b.sortOrder ==> a.collation <= b.collation)
            && (a.sortOrder == b.sortOrder && a.collation == b.collation ==> list[j] < list[k])
  {
    assert Before(records, list[j], list[k]);
  }

  /** A node shows its record; an empty permission counts as none. */
  lemma NodeColumns(records: seq<MenuSource>, nodes: seq<NavigationNode>, i: nat)
    requires Built(records, nodes) && i < |records|
    ensures nodes[i].id == records[i].id && nodes[i].caption == records[i].name && nodes[i].href == records[i].path
    ensures nodes[i].icon == records[i].icon && nodes[i].sortOrder == records[i].sortOrder
    ensures nodes[i].permission.Some? <==>
              records[i].requiredPermission.Some? && records[i].requiredPermission.value != ""
    ensures nodes[i].permission.Some? ==> nodes[i].permission == records[i].requiredPermission
  {
    assert nodes[i].Shows(records[i]);
  }

  /** May be seen: it asks for nothing, the user may do everything, or the user has what it asks for. */
  predicate MaySee(codes: set<string>, m: MenuSource) {
    match m.requiredPermission
    case None => true
    case Some(code) => code == "" || "*" in codes || code in codes
  }

  /** The permitted menus are those the user may see, in their order. */
  lemma {:induction false} PermittedMenus(menus: seq<MenuSource>, codes: set<string>)
    ensures forall m :: m in Filter(menus, codes) <==> m in menus && MaySee(codes, m)
    ensures (forall m :: m in menus ==> MaySee(codes, m)) ==> Filter(menus, codes) == menus
    decreases |menus|
  {
    if menus != [] {
      var prefix, last := menus[..|menus| - 1], menus[|menus| - 1];
      PermittedMenus(prefix, codes);
      assert menus == prefix + [last];
    }
  }

  lemma {:induction false} PermittedInOrder(a: seq<MenuSource>, b: seq<MenuSource>, codes: set<string>)
    ensures Filter(a + b, codes) == Filter(a, codes) + Filter(b, codes)
    decreases |b|
  {
    if b == [] {
      assert a + b == a;
    } else {
      assert (a + b)[..|a + b| - 1] == a + b[..|b| - 1];
      PermittedInOrder(a, b[..|b| - 1], codes);
    }
  }

  /** Whoever may do more sees no less. */
  lemma MoreCodesShowMore(menus: seq<MenuSource>, codes: set<string>, more: set<string>, m: MenuSource)
    requires codes <= more && m in Filter(menus, codes)
    ensures m in Filter(menus, more)
  {
    PermittedMenus(menus, codes);
    PermittedMenus(menus, more);
  }

  /** A permitted menu hangs below its parent if that is permitted too, and is a root otherwise. */
  lemma ParentAmongPermitted(menus: seq<MenuSource>, codes: set<string>, i: nat)
    requires UniqueIds(menus) && i < |Filter(menus, codes)|
    ensures var allowed := Filter(menus, codes);
            UniqueIds(allowed)
            && (Parent(allowed, i).Some? <==>
                  exists p :: p in menus && MaySee(codes, p) && p.id != "" && p.id != allowed[i].id
                              && allowed[i].parentId == Some(p.id))
  {
    var allowed := Filter(menus, codes);
    FilterKeepsIdsUnique(menus, codes);
    PermittedMenus(menus, codes);
    if p :| p in menus && MaySee(codes, p) && p.id != "" && p.id != allowed[i].id && allowed[i].parentId == Some(p.id) {
      assert p in allowed;
      var k :| 0 <= k < |allowed| && allowed[k] == p;
      ParentColumns(allowed, i, k);
    }
    if Parent(allowed, i).Some? {
      var k := Parent(allowed, i).value;
      ParentColumns(allowed, i, k);
      assert allowed[k] in allowed && allowed[k].id != allowed[i].id;
    }
  }
}
