/** Scope checks that count instead of comparing sets: exactScopeSet, normalizeScopes and sameScopes. */
module Scopes {
  import opened Strings

  /** A required list as the program writes them: no scope blank, padded or repeated. */
  ghost predicate IsScopeList(required: seq<string>) {
    && Distinct(required)
    && forall i :: 0 <= i < |required| ==> required[i] != "" && Trim(required[i]) == required[i]
  }

  ghost predicate Distinct(s: seq<string>) {
    forall i, j :: 0 <= i < j < |s| ==> s[i] != s[j]
  }

  function Elements(s: seq<string>): set<string> {
    set x | x in s
  }

  // ---- Counting ------------------------------------------------------------------------------------

  lemma {:induction false} ElementsAreNoMore(s: seq<string>)
    ensures |Elements(s)| <= |s|
    ensures Distinct(s) <==> |Elements(s)| == |s|
  {
    if s != [] {
      var prefix, x := s[..|s| - 1], s[|s| - 1];
      ElementsAreNoMore(prefix);
      assert s == prefix + [x];
      assert Elements(s) == Elements(prefix) + {x};
      if x in prefix {
        assert Elements(s) == Elements(prefix);
        var i :| 0 <= i < |prefix| && prefix[i] == x;
        assert s[i] == s[|s| - 1];
      } else {
        assert Distinct(s) <==> Distinct(prefix);
      }
    }
  }

  lemma SubsetOfSameSize(a: set<string>, b: set<string>)
    requires a <= b && |b| <= |a|
    ensures a == b
  {
    if x :| x in b && x !in a {
      assert a <= b - {x};
      Smaller(a, b - {x});
    }
  }

  lemma {:induction false} Smaller(a: set<string>, b: set<string>)
    requires a <= b
    ensures |a| <= |b|
    decreases a
  {
    if x :| x in a {
      Smaller(a - {x}, b - {x});
    }
  }

  lemma {:induction false} DistinctMultiset(s: seq<string>)
    requires Distinct(s)
    ensures forall x :: multiset(s)[x] == if x in s then 1 else 0
  {
    if s != [] {
      var prefix, x := s[..|s| - 1], s[|s| - 1];
      assert s == prefix + [x];
      DistinctMultiset(prefix);
    }
  }

  // ---- exactScopeSet ----------------------------------------------------------------------------

  function TrimAll(scopes: seq<string>): (r: seq<string>)
    ensures |r| == |scopes| && forall i :: 0 <= i < |scopes| ==> r[i] == Trim(scopes[i])
  {
    seq(|scopes|, i requires 0 <= i < |scopes| => Trim(scopes[i]))
  }

  predicate ExactScopes(granted: seq<string>, required: seq<string>) {
    |granted| == |required| && forall i :: 0 <= i < |required| ==> required[i] in TrimAll(granted)
  }

  method ExactScopeSet(granted: seq<string>, required: seq<string>) returns (exact: bool)
    ensures exact <==> ExactScopes(granted, required)
  {
    if |granted| != |required| {
      return false;
    }
    ghost var trimmed := TrimAll(granted);
    var values: set<string> := {};
    for i := 0 to |granted|
      invariant values == Elements(trimmed[..i])
    {
      assert trimmed[..i + 1] == trimmed[..i] + [Trim(granted[i])];
      values := values + {Trim(granted[i])};
    }
    assert trimmed[..|granted|] == trimmed;
    for i := 0 to |required|
      invariant forall k :: 0 <= k < i ==> required[k] in TrimAll(granted)
    {
      if required[i] !in values {
        return false;
      }
    }
    return true;
  }

  /** The check by counting accepts exactly the permutations, up to padding, of the required list. */
  lemma ExactScopesArePermutations(granted: seq<string>, required: seq<string>)
    requires IsScopeList(required)
    ensures ExactScopes(granted, required) <==> multiset(TrimAll(granted)) == multiset(required)
  {
    var trimmed := TrimAll(granted);
    if multiset(trimmed) == multiset(required) {
      assert |multiset(trimmed)| == |trimmed| && |multiset(required)| == |required|;
      forall i | 0 <= i < |required| ensures required[i] in trimmed {
        assert required[i] in multiset(required);
      }
    }
    if ExactScopes(granted, required) {
      ElementsAreNoMore(required);
      ElementsAreNoMore(trimmed);
      SubsetOfSameSize(Elements(required), Elements(trimmed));
      DistinctMultiset(required);
      DistinctMultiset(trimmed);
      assert forall x :: x in required <==> x in Elements(required);
      assert forall x :: x in trimmed <==> x in Elements(trimmed);
    }
  }

  // ---- normalizeScopes and sameScopes ------------------------------------------------------------

  /** What the loop leaves: every scope once, trimmed, where it first occurred. */
  method NormalizeScopes(scopes: seq<string>) returns (result: seq<string>)
    ensures Distinct(result)
    ensures Elements(result) == Normalized(scopes)
    ensures InOrder(scopes, result, |scopes|)
  {
    var seen: set<string> := {};
    result := [];
    for i := 0 to |scopes|
      invariant Distinct(result) && seen == Elements(result) == Normalized(scopes[..i])
      invariant InOrder(scopes, result, i)
    {
      var scope := Trim(scopes[i]);
      NormalizedStep(scopes, i);
      if scope != "" && scope !in seen {
        FirstHere(scopes, i);
        OrderGrows(scopes, result, i, scope);
        seen := seen + {scope};
        result := result + [scope];
      }
    }
    assert scopes[..|scopes|] == scopes;
  }

  /** The scopes occur first below n, in this order. */
  ghost predicate InOrder(scopes: seq<string>, result: seq<string>, n: nat) {
    && (forall k :: 0 <= k < |result| ==> FirstIndex(scopes, result[k]) < n)
    && (forall j, k :: 0 <= j < k < |result| ==> FirstIndex(scopes, result[j]) < FirstIndex(scopes, result[k]))
  }

  lemma OrderGrows(scopes: seq<string>, result: seq<string>, i: nat, scope: string)
    requires InOrder(scopes, result, i) && FirstIndex(scopes, scope) == i && scope !in result && Distinct(result)
    ensures InOrder(scopes, result + [scope], i + 1) && Distinct(result + [scope])
  {
  }

  ghost function Normalized(scopes: seq<string>): set<string> {
    set i | 0 <= i < |scopes| && Trim(scopes[i]) != "" :: Trim(scopes[i])
  }

  ghost function FirstIndex(scopes: seq<string>, scope: string): nat {
    if scopes == [] || Trim(scopes[0]) == scope then 0 else 1 + FirstIndex(scopes[1..], scope)
  }

  lemma NormalizedStep(scopes: seq<string>, i: nat)
    requires i < |scopes|
    ensures Normalized(scopes[..i + 1]) ==
            if Trim(scopes[i]) == "" then Normalized(scopes[..i]) else Normalized(scopes[..i]) + {Trim(scopes[i])}
  {
    var more, less := scopes[..i + 1], scopes[..i];
    assert more[i] == scopes[i] && forall k :: 0 <= k < i ==> more[k] == less[k];
    forall x | x in Normalized(less) ensures x in Normalized(more) {
      var k :| 0 <= k < i && Trim(less[k]) != "" && Trim(less[k]) == x;
      assert Trim(more[k]) == x;
    }
  }

  lemma {:induction false} FirstHere(scopes: seq<string>, i: nat)
    requires i < |scopes| && Trim(scopes[i]) != "" && Trim(scopes[i]) !in Normalized(scopes[..i])
    ensures FirstIndex(scopes, Trim(scopes[i])) == i
  {
    NotBefore(scopes, i);
    FirstAt(scopes, i);
  }

  lemma NotBefore(scopes: seq<string>, i: nat)
    requires i < |scopes| && Trim(scopes[i]) != "" && Trim(scopes[i]) !in Normalized(scopes[..i])
    ensures forall k :: 0 <= k < i ==> Trim(scopes[k]) != Trim(scopes[i])
  {
    forall k | 0 <= k < i ensures Trim(scopes[k]) != Trim(scopes[i]) {
      assert scopes[..i][k] == scopes[k];
    }
  }

  lemma {:induction false} FirstAt(scopes: seq<string>, i: nat)
    requires i < |scopes| && forall k :: 0 <= k < i ==> Trim(scopes[k]) != Trim(scopes[i])
    ensures FirstIndex(scopes, Trim(scopes[i])) == i
  {
    if i > 0 {
      assert forall k :: 0 <= k < i - 1 ==> scopes[1..][k] == scopes[k + 1];
      FirstAt(scopes[1..], i - 1);
    }
  }

  method ScopeListContains(granted: seq<string>, required: seq<string>) returns (contains: bool)
    ensures contains <==> forall i :: 0 <= i < |required| ==> required[i] in granted
  {
    var values: set<string> := {};
    for i := 0 to |granted|
      invariant forall x :: x in values <==> exists k :: 0 <= k < i && x == granted[k]
    {
      values := values + {granted[i]};
    }
    for i := 0 to |required|
      invariant forall k :: 0 <= k < i ==> required[k] in granted
    {
      if required[i] !in values {
        return false;
      }
    }
    return true;
  }

  /** Accepts exactly when the scopes are the required ones and each also occurs unpadded. */
  method SameScopes(granted: seq<string>, required: seq<string>) returns (same: bool)
    ensures IsScopeList(required) ==>
              (same <==>
                && Normalized(granted) == Elements(required)
                && forall i :: 0 <= i < |required| ==> required[i] in granted)
  {
    var g := NormalizeScopes(granted);
    var r := NormalizeScopes(required);
    var contains := ScopeListContains(granted, required);
    same := |g| == |r| && contains;
    if IsScopeList(required) {
      RequiredIsNormal(required);
      ElementsAreNoMore(g);
      ElementsAreNoMore(r);
      if contains {
        ContainedIsNormalized(granted, required);
        if |g| == |r| {
          SubsetOfSameSize(Elements(required), Normalized(granted));
        }
      }
    }
  }

  lemma RequiredIsNormal(required: seq<string>)
    requires IsScopeList(required)
    ensures Normalized(required) == Elements(required)
  {
    forall x | x in required ensures x in Normalized(required) {
      var i :| 0 <= i < |required| && required[i] == x;
      assert Trim(required[i]) == x;
    }
  }

  lemma ContainedIsNormalized(granted: seq<string>, required: seq<string>)
    requires IsScopeList(required) && forall i :: 0 <= i < |required| ==> required[i] in granted
    ensures Elements(required) <= Normalized(granted)
  {
    forall x | x in required ensures x in Normalized(granted) {
      var i :| 0 <= i < |required| && required[i] == x;
      var k :| 0 <= k < |granted| && granted[k] == x;
      assert Trim(granted[k]) == x;
    }
  }

  /** The converse of "accepted means equal" fails: a padded scope counts as granted but is not found. */
  lemma PaddedScopeIsRefused(granted: seq<string>, required: seq<string>)
    requires granted == [" read_products", "read_themes"] && required == ["read_products", "read_themes"]
    ensures IsScopeList(required) && Normalized(granted) == Elements(required)
    ensures "read_products" !in granted
  {
    assert IsTrimmed("read_products") && IsTrimmed("read_themes");
    TrimTrims("read_products");
    TrimTrims("read_themes");
    assert TrimLeft(" read_products") == "read_products" by {
      assert " read_products"[1..] == "read_products";
    }
    TrimLeftOfTrimmed("read_products");
    assert Trim(granted[0]) == "read_products" && Trim(granted[1]) == "read_themes";
    assert granted[0][0] == ' ' && "read_products"[0] == 'r';
    assert required[0][5] != required[1][5];
  }

  lemma TrimLeftOfTrimmed(s: string)
    requires s != "" && !IsSpace(s[0])
    ensures TrimLeft(s) == s
  {
  }
}
