/** internal/configcode: manifests, their ordering, and applying them to the registry. */
module ConfigCode {
  import R = ConfigRegistry

  type Raw = R.Raw
  type Registry = R.Registry

  datatype Manifest =
    | TenantManifest(name: string, title: string, description: string, owner: string)
    | DefinitionManifest(name: string, tenant: string, key: string, description: string, schema: Raw, defaultValue: Raw)
    | VersionManifest(name: string, tenant: string, key: string, value: Raw, sourceCommitSHA: string, createdBy: string)
    | StableManifest(name: string, tenant: string, key: string, environment: string, versionRef: string)
    | RolloutManifest(name: string, tenant: string, key: string, environment: string, candidateVersionRef: string)
    | UnknownManifest(name: string)

  // ----- orderDocuments -----

  /** The kinds in the order they are applied; 5 stands for every other kind. */
  function Rank(m: Manifest): (r: nat) {
    match m
    case TenantManifest(_, _, _, _) => 0
    case DefinitionManifest(_, _, _, _, _, _) => 1
    case VersionManifest(_, _, _, _, _, _) => 2
    case StableManifest(_, _, _, _, _) => 3
    case RolloutManifest(_, _, _, _, _) => 4
    case UnknownManifest(_) => 5
  }

  function OfRank(docs: seq<Manifest>, r: nat): (kept: seq<Manifest>)
    ensures forall m :: m in kept <==> m in docs && Rank(m) == r
  {
    if docs == [] then []
    else
      var last := docs[|docs| - 1];
      OfRank(docs[..|docs| - 1], r) + if Rank(last) == r then [last] else []
  }

  function OrderedUpTo(docs: seq<Manifest>, r: nat): seq<Manifest> {
    if r == 0 then [] else OrderedUpTo(docs, r - 1) + OfRank(docs, r - 1)
  }

  function Ordered(docs: seq<Manifest>): seq<Manifest> {
    OrderedUpTo(docs, 5)
  }

  method OrderDocuments(docs: seq<Manifest>) returns (ordered: seq<Manifest>)
    ensures ordered == Ordered(docs)
  {
    hide OfRank, Rank;
    ordered := [];
    for r := 0 to 5
      invariant ordered == OrderedUpTo(docs, r)
    {
      ordered := AppendKind(docs, r, ordered);
    }
  }

  /** The inner loop: append the documents of one kind. */
  method AppendKind(docs: seq<Manifest>, r: nat, ordered: seq<Manifest>) returns (longer: seq<Manifest>)
    ensures longer == ordered + OfRank(docs, r)
  {
    longer := ordered;
    for i := 0 to |docs|
      invariant longer == ordered + OfRank(docs[..i], r)
    {
      assert docs[..i + 1][..i] == docs[..i];
      if Rank(docs[i]) == r {
        longer := longer + [docs[i]];
      }
    }
    assert docs[..|docs|] == docs;
  }

  predicate SortedByKind(docs: seq<Manifest>) {
    forall i, j :: 0 <= i < j < |docs| ==> Rank(docs[i]) <= Rank(docs[j])
  }

  predicate AllKnown(docs: seq<Manifest>) {
    forall i :: 0 <= i < |docs| ==> Rank(docs[i]) < 5
  }

  lemma {:induction false} OfRankJoins(a: seq<Manifest>, b: seq<Manifest>, r: nat)
    ensures OfRank(a + b, r) == OfRank(a, r) + OfRank(b, r)
  {
    if b == [] {
      assert a + b == a;
    } else {
      assert (a + b)[..|a + b| - 1] == a + b[..|b| - 1];
      OfRankJoins(a, b[..|b| - 1], r);
    }
  }

  lemma {:induction false} OfRankTwice(docs: seq<Manifest>, r: nat, q: nat)
    ensures OfRank(OfRank(docs, r), q) == if q == r then OfRank(docs, r) else []
  {
    if docs != [] {
      var front, last := docs[..|docs| - 1], docs[|docs| - 1];
      OfRankTwice(front, r, q);
      OfRankJoins(OfRank(front, r), if Rank(last) == r then [last] else [], q);
      OfRankOne(last, q);
    }
  }

  lemma {:induction false} OfRankOne(m: Manifest, q: nat)
    ensures OfRank([m], q) == if Rank(m) == q then [m] else []
  {
    assert [m][..0] == [];
  }

  lemma {:induction false} UpToIsStable(docs: seq<Manifest>, r: nat, q: nat)
    ensures OfRank(OrderedUpTo(docs, r), q) == if q < r then OfRank(docs, q) else []
  {
    hide OfRank, Rank;
    if r == 0 {
      NoneOfRank([], q);
    } else {
      UpToIsStable(docs, r - 1, q);
      OfRankJoins(OrderedUpTo(docs, r - 1), OfRank(docs, r - 1), q);
      OfRankTwice(docs, r - 1, q);
    }
  }

  lemma {:induction false} UpToIsBelow(docs: seq<Manifest>, r: nat)
    ensures forall m :: m in OrderedUpTo(docs, r) ==> Rank(m) < r
  {
    hide Rank;
    if r > 0 {
      UpToIsBelow(docs, r - 1);
    }
  }

  lemma {:induction false} UpToIsSorted(docs: seq<Manifest>, r: nat)
    ensures SortedByKind(OrderedUpTo(docs, r))
  {
    hide Rank;
    if r > 0 {
      UpToIsSorted(docs, r - 1);
      UpToIsBelow(docs, r - 1);
      JoinIsSorted(OrderedUpTo(docs, r - 1), OfRank(docs, r - 1), r - 1);
    }
  }

  lemma {:induction false} JoinIsSorted(a: seq<Manifest>, b: seq<Manifest>, r: nat)
    requires SortedByKind(a) && (forall m :: m in a ==> Rank(m) < r) && (forall m :: m in b ==> Rank(m) == r)
    ensures SortedByKind(a + b)
  {
    hide Rank;
    forall i, j | 0 <= i < j < |a + b| ensures Rank((a + b)[i]) <= Rank((a + b)[j]) {
      assert i < |a| ==> (a + b)[i] in a;
      assert i >= |a| ==> (a + b)[i] in b;
      assert j >= |a| ==> (a + b)[j] in b;
    }
  }

  /** A stable sort by kind: sorted, every known-kind document kept, and each kind's documents in their own order. */
  lemma {:induction false} OrderIsAStableSort(docs: seq<Manifest>)
    ensures SortedByKind(Ordered(docs)) && AllKnown(Ordered(docs))
    ensures forall r: nat :: r < 5 ==> OfRank(Ordered(docs), r) == OfRank(docs, r)
    ensures forall m :: m in Ordered(docs) <==> m in docs && Rank(m) < 5
  {
    forall r: nat | r < 5 ensures OfRank(Ordered(docs), r) == OfRank(docs, r) {
      UpToIsStable(docs, 5, r);
    }
    UpToIsSorted(docs, 5);
    UpToIsBelow(docs, 5);
    assert forall i :: 0 <= i < |Ordered(docs)| ==> Ordered(docs)[i] in Ordered(docs);
    forall m ensures m in Ordered(docs) <==> m in docs && Rank(m) < 5 {
      if Rank(m) < 5 {
        assert m in OfRank(Ordered(docs), Rank(m)) <==> m in OfRank(docs, Rank(m));
      }
    }
  }

  /** Tenants come first, then definitions, versions, stable versions, and rollouts last. */
  lemma {:induction false} KindsComeInOrder(docs: seq<Manifest>, i: nat, j: nat)
    requires i < j < |Ordered(docs)|
    ensures var earlier, later := Ordered(docs)[i], Ordered(docs)[j];
      && (later.TenantManifest? ==> earlier.TenantManifest?)
      && (later.DefinitionManifest? ==> earlier.TenantManifest? || earlier.DefinitionManifest?)
      && (later.VersionManifest? ==> !earlier.StableManifest? && !earlier.RolloutManifest?)
      && (later.StableManifest? ==> !earlier.RolloutManifest?)
      && !earlier.UnknownManifest? && !later.UnknownManifest?
  {
    hide Ordered;
    OrderIsAStableSort(docs);
  }

  lemma {:induction false} NoneOfRank(docs: seq<Manifest>, r: nat)
    requires forall m :: m in docs ==> Rank(m) != r
    ensures OfRank(docs, r) == []
  {
    if docs != [] {
      NoneOfRank(docs[..|docs| - 1], r);
    }
  }

  lemma {:induction false} SortedSnoc(docs: seq<Manifest>, last: Manifest, r: nat)
    requires forall m :: m in docs ==> Rank(m) <= Rank(last)
    ensures OrderedUpTo(docs + [last], r) == OrderedUpTo(docs, r) + if Rank(last) < r then [last] else []
  {
    hide Rank, OfRank;
    if r > 0 {
      SortedSnoc(docs, last, r - 1);
      OfRankJoins(docs, [last], r - 1);
      OfRankOne(last, r - 1);
      var earlier, more := OrderedUpTo(docs, r - 1), OfRank(docs, r - 1);
      if Rank(last) < r - 1 {
        NoneOfRank(docs, r - 1);
        assert earlier + [last] + [] == earlier + [] + [last];
      } else if Rank(last) == r - 1 {
        assert earlier + (more + [last]) == earlier + more + [last];
      }
    }
  }

  lemma {:induction false} SortedIsItsOrder(docs: seq<Manifest>)
    requires SortedByKind(docs) && AllKnown(docs)
    ensures Ordered(docs) == docs
  {
    if docs == [] {
      NothingToOrder(5);
    } else {
      var front, last := docs[..|docs| - 1], docs[|docs| - 1];
      SortedIsItsOrder(front);
      assert docs == front + [last];
      SortedSnoc(front, last, 5);
    }
  }

  lemma {:induction false} NothingToOrder(r: nat)
    ensures OrderedUpTo([], r) == []
  {
    if r > 0 {
      NothingToOrder(r - 1);
    }
  }

  lemma {:induction false} OrderSeesRanksOnly(a: seq<Manifest>, b: seq<Manifest>, r: nat)
    requires forall q: nat :: q < r ==> OfRank(a, q) == OfRank(b, q)
    ensures OrderedUpTo(a, r) == OrderedUpTo(b, r)
  {
    if r > 0 {
      OrderSeesRanksOnly(a, b, r - 1);
    }
  }

  /** There is no other stable sort by kind. */
  lemma {:induction false} OrderIsTheOnlyStableSort(docs: seq<Manifest>, other: seq<Manifest>)
    requires SortedByKind(other) && AllKnown(other)
    requires forall r: nat :: r < 5 ==> OfRank(other, r) == OfRank(docs, r)
    ensures other == Ordered(docs)
  {
    SortedIsItsOrder(other);
    OrderSeesRanksOnly(other, docs, 5);
  }
}
