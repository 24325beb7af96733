/** get_ancestors: the non-raw, non-composite ancestors of a building snapshot,
    found by walking up its parent relation through the snapshots whose source
    type is reported or composite. */
module Ancestors {
  import opened Codes

  /** A snapshot id is its index in the snapshot table. */
  type SnapshotId = nat

  datatype Snapshot = Snapshot(sourceType: int, parents: seq<SnapshotId>)

  /** Every parent was created before its child: its id is smaller. This is the
      acyclicity of the parent relation, and the termination measure. */
  ghost predicate WellFormed(g: seq<Snapshot>)
  {
    forall i, k :: 0 <= i < |g| && 0 <= k < |g[i].parents| ==> g[i].parents[k] < i
  }

  /** Every id in `ps` is below `n`. */
  predicate Below(ps: seq<SnapshotId>, n: nat)
  {
    forall i :: 0 <= i < |ps| ==> ps[i] < n
  }

  /** The ids of `ps` whose snapshot has a source type `keep` accepts, in order
      (the queryset filter on source_type__in). */
  function SelectBySource(g: seq<Snapshot>, ps: seq<SnapshotId>, keep: set<int>): (r: seq<SnapshotId>)
    requires Below(ps, |g|)
    ensures |r| <= |ps| && Below(r, |g|)
  {
    if ps == [] then []
    else (if g[ps[0]].sourceType in keep then [ps[0]] else []) + SelectBySource(g, ps[1..], keep)
  }

  /** The selection keeps exactly the ids whose source type is accepted. */
  lemma {:induction false} SelectMembers(g: seq<Snapshot>, ps: seq<SnapshotId>, keep: set<int>, p: SnapshotId)
    requires Below(ps, |g|)
    ensures p in SelectBySource(g, ps, keep) <==> p in ps && g[p].sourceType in keep
  {
    if ps != [] {
      SelectMembers(g, ps[1..], keep, p);
      assert p in ps <==> p == ps[0] || p in ps[1..];
    }
  }

  /** Nothing is selected when no id is accepted. */
  lemma {:induction false} SelectNone(g: seq<Snapshot>, ps: seq<SnapshotId>, keep: set<int>)
    requires Below(ps, |g|)
    requires forall i :: 0 <= i < |ps| ==> g[ps[i]].sourceType !in keep
    ensures SelectBySource(g, ps, keep) == []
  {
    if ps != [] {
      assert forall i :: 0 <= i < |ps[1..]| ==> ps[1..][i] == ps[i + 1];
      SelectNone(g, ps[1..], keep);
    }
  }

  /** Everything is selected when every id is accepted. */
  lemma {:induction false} SelectAll(g: seq<Snapshot>, ps: seq<SnapshotId>, keep: set<int>)
    requires Below(ps, |g|)
    requires forall i :: 0 <= i < |ps| ==> g[ps[i]].sourceType in keep
    ensures SelectBySource(g, ps, keep) == ps
  {
    if ps != [] {
      assert forall i :: 0 <= i < |ps[1..]| ==> ps[1..][i] == ps[i + 1];
      SelectAll(g, ps[1..], keep);
    }
  }

  /** get_ancestors(building): the parents with a reported source type, then
      the ancestors of every traversed parent in parent order. Every ancestor
      was created before the building. */
  function GetAncestors(g: seq<Snapshot>, b: SnapshotId): (r: seq<SnapshotId>)
    requires WellFormed(g) && b < |g|
    ensures Below(r, b)
    decreases b, 1
  {
    ParentsBelow(g, b);
    var parents := SelectBySource(g, g[b].parents, TRAVERSED_SOURCES);
    SelectBelow(g, g[b].parents, TRAVERSED_SOURCES, b);
    SelectBelow(g, parents, ANCESTOR_SOURCES, b);
    var direct := SelectBySource(g, parents, ANCESTOR_SOURCES);
    var further := AncestorsOfEach(g, parents, b);
    BelowConcat(direct, further, b);
    direct + further
  }

  lemma BelowConcat(a: seq<SnapshotId>, c: seq<SnapshotId>, n: nat)
    requires Below(a, n) && Below(c, n)
    ensures Below(a + c, n)
  {
    forall i | 0 <= i < |a + c| ensures (a + c)[i] < n {
      if i >= |a| { assert (a + c)[i] == c[i - |a|]; }
    }
  }

  lemma ParentsBelow(g: seq<Snapshot>, b: SnapshotId)
    requires WellFormed(g) && b < |g|
    ensures Below(g[b].parents, b)
  {
  }

  /** Selecting keeps every id below a bound the input ids are below. */
  lemma {:induction false} SelectBelow(g: seq<Snapshot>, ps: seq<SnapshotId>, keep: set<int>, n: nat)
    requires Below(ps, |g|) && Below(ps, n)
    ensures Below(SelectBySource(g, ps, keep), n)
  {
    if ps != [] {
      SelectBelow(g, ps[1..], keep, n);
    }
  }

  /** The loop `for p in parents: ancestors.extend(get_ancestors(p))`. */
  function AncestorsOfEach(g: seq<Snapshot>, ps: seq<SnapshotId>, bound: nat): (r: seq<SnapshotId>)
    requires WellFormed(g) && bound <= |g|
    requires Below(ps, bound)
    ensures Below(r, bound)
    decreases bound, 0, |ps|
  {
    if ps == [] then []
    else
      var first := GetAncestors(g, ps[0]);
      var rest := AncestorsOfEach(g, ps[1..], bound);
      BelowConcat(first, rest, bound);
      first + rest
  }

  /** `x` is reachable from `b` by climbing through parents of traversed source
      type only, and `x` itself has a reported source type. */
  ghost predicate Reaches(g: seq<Snapshot>, b: SnapshotId, x: SnapshotId)
    requires WellFormed(g) && b < |g|
    decreases b
  {
    exists k :: 0 <= k < |g[b].parents| &&
      g[g[b].parents[k]].sourceType in TRAVERSED_SOURCES &&
      ((g[b].parents[k] == x && g[x].sourceType in ANCESTOR_SOURCES) || Reaches(g, g[b].parents[k], x))
  }

  /** A member's ancestors are part of the concatenation over `ps`. */
  lemma {:induction false} AncestorsOfEachHas(g: seq<Snapshot>, ps: seq<SnapshotId>, bound: nat, i: nat, x: SnapshotId)
    requires WellFormed(g) && bound <= |g|
    requires Below(ps, bound) && i < |ps|
    requires x in GetAncestors(g, ps[i])
    ensures x in AncestorsOfEach(g, ps, bound)
    decreases i
  {
    var rest := ps[1..];
    assert Below(rest, bound) by {
      forall j | 0 <= j < |rest| ensures rest[j] < bound { assert rest[j] == ps[j + 1]; }
    }
    if i > 0 {
      assert rest[i - 1] == ps[i];
      AncestorsOfEachHas(g, rest, bound, i - 1, x);
    }
  }

  /** Whatever the concatenation over `ps` holds comes from some member. */
  lemma {:induction false} AncestorsOfEachFrom(g: seq<Snapshot>, ps: seq<SnapshotId>, bound: nat, x: SnapshotId) returns (i: nat)
    requires WellFormed(g) && bound <= |g|
    requires Below(ps, bound)
    requires x in AncestorsOfEach(g, ps, bound)
    ensures i < |ps| && x in GetAncestors(g, ps[i])
    decreases |ps|
  {
    var rest := ps[1..];
    assert Below(rest, bound) by {
      forall j | 0 <= j < |rest| ensures rest[j] < bound { assert rest[j] == ps[j + 1]; }
    }
    if x in GetAncestors(g, ps[0]) {
      i := 0;
    } else {
      var j := AncestorsOfEachFrom(g, rest, bound, x);
      assert rest[j] == ps[j + 1];
      i := j + 1;
    }
  }

  /** The concatenation over `ps` has `x` exactly when one of its members' ancestors has. */
  lemma AncestorsOfEachMembership(g: seq<Snapshot>, ps: seq<SnapshotId>, bound: nat, x: SnapshotId)
    requires WellFormed(g) && bound <= |g|
    requires Below(ps, bound)
    ensures x in AncestorsOfEach(g, ps, bound) <==> exists i :: 0 <= i < |ps| && x in GetAncestors(g, ps[i])
  {
    if x in AncestorsOfEach(g, ps, bound) {
      var i := AncestorsOfEachFrom(g, ps, bound, x);
    }
    if exists i :: 0 <= i < |ps| && x in GetAncestors(g, ps[i]) {
      var i :| 0 <= i < |ps| && x in GetAncestors(g, ps[i]);
      AncestorsOfEachHas(g, ps, bound, i, x);
    }
  }

  /** The result holds exactly the snapshots reachable through traversed
      parents that have a reported source type: a raw parent (0, 1, 5) is
      neither reported nor climbed through. */
  lemma {:induction false} GetAncestorsIsReachable(g: seq<Snapshot>, b: SnapshotId, x: SnapshotId)
    requires WellFormed(g) && b < |g|
    ensures x in GetAncestors(g, b) <==> Reaches(g, b, x)
    decreases b
  {
    ParentsBelow(g, b);
    var parents := SelectBySource(g, g[b].parents, TRAVERSED_SOURCES);
    SelectBelow(g, g[b].parents, TRAVERSED_SOURCES, b);
    var direct := SelectBySource(g, parents, ANCESTOR_SOURCES);
    assert GetAncestors(g, b) == direct + AncestorsOfEach(g, parents, b);
    SelectMembers(g, parents, ANCESTOR_SOURCES, x);
    SelectMembers(g, g[b].parents, TRAVERSED_SOURCES, x);
    if x in GetAncestors(g, b) {
      if x in direct {
        var k :| 0 <= k < |g[b].parents| && g[b].parents[k] == x;
      } else {
        var i := AncestorsOfEachFrom(g, parents, b, x);
        var p := parents[i];
        SelectMembers(g, g[b].parents, TRAVERSED_SOURCES, p);
        var k :| 0 <= k < |g[b].parents| && g[b].parents[k] == p;
        GetAncestorsIsReachable(g, p, x);
      }
    }
    if Reaches(g, b, x) {
      var k :| 0 <= k < |g[b].parents| &&
        g[g[b].parents[k]].sourceType in TRAVERSED_SOURCES &&
        ((g[b].parents[k] == x && g[x].sourceType in ANCESTOR_SOURCES) || Reaches(g, g[b].parents[k], x));
      var p := g[b].parents[k];
      SelectMembers(g, g[b].parents, TRAVERSED_SOURCES, p);
      if p == x && g[x].sourceType in ANCESTOR_SOURCES {
        assert x in direct;
      } else {
        GetAncestorsIsReachable(g, p, x);
        var i :| 0 <= i < |parents| && parents[i] == p;
        AncestorsOfEachHas(g, parents, b, i, x);
      }
    }
  }

  /** Everything reachable lies below the start and has a reported source type. */
  lemma {:induction false} ReachesReported(g: seq<Snapshot>, b: SnapshotId, x: SnapshotId)
    requires WellFormed(g) && b < |g|
    requires Reaches(g, b, x)
    ensures x < b && g[x].sourceType in ANCESTOR_SOURCES
    decreases b
  {
    var k :| 0 <= k < |g[b].parents| &&
      g[g[b].parents[k]].sourceType in TRAVERSED_SOURCES &&
      ((g[b].parents[k] == x && g[x].sourceType in ANCESTOR_SOURCES) || Reaches(g, g[b].parents[k], x));
    var p := g[b].parents[k];
    if !(p == x && g[x].sourceType in ANCESTOR_SOURCES) {
      ReachesReported(g, p, x);
    }
  }

  /** Every ancestor was created before the building and has a reported
      source type (the source_type__in filter of get_ancestors). */
  lemma AncestorsReported(g: seq<Snapshot>, b: SnapshotId)
    requires WellFormed(g) && b < |g|
    ensures forall x :: x in GetAncestors(g, b) ==> x < b && g[x].sourceType in ANCESTOR_SOURCES
  {
    forall x | x in GetAncestors(g, b)
      ensures x < b && g[x].sourceType in ANCESTOR_SOURCES
    {
      GetAncestorsIsReachable(g, b, x);
      ReachesReported(g, b, x);
    }
  }

  /** The direct parents of reported source type come first, in parent order,
      before anything found by recursion. */
  lemma DirectParentsFirst(g: seq<Snapshot>, b: SnapshotId)
    requires WellFormed(g) && b < |g|
    ensures var direct := SelectBySource(g, g[b].parents, ANCESTOR_SOURCES);
      |direct| <= |GetAncestors(g, b)| && GetAncestors(g, b)[..|direct|] == direct
  {
    ParentsBelow(g, b);
    SelectNested(g, g[b].parents, TRAVERSED_SOURCES, ANCESTOR_SOURCES);
  }

  /** Filtering by a wider predicate, then by a narrower one, is filtering by
      the narrower one. */
  lemma {:induction false} SelectNested(g: seq<Snapshot>, ps: seq<SnapshotId>, wide: set<int>, narrow: set<int>)
    requires Below(ps, |g|)
    requires narrow <= wide
    ensures SelectBySource(g, SelectBySource(g, ps, wide), narrow) == SelectBySource(g, ps, narrow)
  {
    if ps != [] {
      SelectNested(g, ps[1..], wide, narrow);
      var head := if g[ps[0]].sourceType in wide then [ps[0]] else [];
      var tail := SelectBySource(g, ps[1..], wide);
      assert SelectBySource(g, ps, wide) == head + tail;
      SelectConcat(g, head, tail, narrow);
    }
  }

  lemma {:induction false} SelectConcat(g: seq<Snapshot>, a: seq<SnapshotId>, b: seq<SnapshotId>, keep: set<int>)
    requires Below(a + b, |g|)
    ensures Below(a, |g|) && Below(b, |g|)
    ensures SelectBySource(g, a + b, keep) == SelectBySource(g, a, keep) + SelectBySource(g, b, keep)
    decreases |a|
  {
    if a != [] {
      assert (a + b)[1..] == a[1..] + b;
      assert Below(a[1..] + b, |g|) by {
        forall i | 0 <= i < |a[1..] + b| ensures (a[1..] + b)[i] < |g| {
          assert (a[1..] + b)[i] == (a + b)[i + 1];
        }
      }
      SelectConcat(g, a[1..], b, keep);
    } else {
      assert a + b == b;
    }
  }

  /** A composite (4) parent is climbed through but not itself reported. */
  lemma CompositeParentClimbed(g: seq<Snapshot>, b: SnapshotId, k: nat)
    requires WellFormed(g) && b < |g| && k < |g[b].parents|
    requires g[g[b].parents[k]].sourceType == COMPOSITE_BS
    ensures g[b].parents[k] !in GetAncestors(g, b)
    ensures forall x :: x in GetAncestors(g, g[b].parents[k]) ==> x in GetAncestors(g, b)
  {
    var p := g[b].parents[k];
    AncestorsReported(g, b);
    forall x | x in GetAncestors(g, p)
      ensures x in GetAncestors(g, b)
    {
      GetAncestorsIsReachable(g, p, x);
      assert g[g[b].parents[k]].sourceType in TRAVERSED_SOURCES && Reaches(g, g[b].parents[k], x);
      GetAncestorsIsReachable(g, b, x);
    }
  }

  /** A snapshot whose parents are all raw has no ancestors, whatever lies
      above those parents. */
  lemma OnlyRawParents(g: seq<Snapshot>, b: SnapshotId)
    requires WellFormed(g) && b < |g|
    requires forall k :: 0 <= k < |g[b].parents| ==> g[g[b].parents[k]].sourceType in RAW_SOURCES
    ensures GetAncestors(g, b) == []
  {
    ParentsBelow(g, b);
    NothingTraversed(g, b);
  }

  lemma NothingTraversed(g: seq<Snapshot>, b: SnapshotId)
    requires WellFormed(g) && b < |g|
    requires forall k :: 0 <= k < |g[b].parents| ==> g[g[b].parents[k]].sourceType in RAW_SOURCES
    ensures Below(g[b].parents, |g|) && SelectBySource(g, g[b].parents, TRAVERSED_SOURCES) == []
  {
    ParentsBelow(g, b);
    SelectNone(g, g[b].parents, TRAVERSED_SOURCES);
  }

  /** A snapshot without parents has no ancestors. */
  lemma NoParents(g: seq<Snapshot>, b: SnapshotId)
    requires WellFormed(g) && b < |g| && g[b].parents == []
    ensures GetAncestors(g, b) == []
  {
  }

  /** A diamond of reported snapshots: 0 <- 1, 0 <- 2, {1, 2} <- 3. */
  function Diamond(): (g: seq<Snapshot>)
    ensures WellFormed(g) && |g| == 4
  {
    [Snapshot(ASSESSED_BS, []), Snapshot(PORTFOLIO_BS, [0]),
     Snapshot(ASSESSED_BS, [0]), Snapshot(ASSESSED_BS, [1, 2])]
  }

  /** The concatenation over two parents is their two ancestor lists in order. */
  lemma AncestorsOfPair(g: seq<Snapshot>, p: SnapshotId, q: SnapshotId, bound: nat)
    requires WellFormed(g) && bound <= |g| && p < bound && q < bound
    ensures Below([p, q], bound) && Below([q], bound)
    ensures AncestorsOfEach(g, [p, q], bound) == GetAncestors(g, p) + GetAncestors(g, q)
  {
    assert [p, q][1..] == [q];
    assert AncestorsOfEach(g, [q], bound) == GetAncestors(g, q) + AncestorsOfEach(g, [], bound);
  }

  /** A snapshot whose one parent is a reported snapshot without parents has
      exactly that parent as ancestor. */
  lemma ReportedRootParent(g: seq<Snapshot>, b: SnapshotId, p: SnapshotId)
    requires WellFormed(g) && b < |g| && g[b].parents == [p] && p < |g|
    requires g[p].sourceType in ANCESTOR_SOURCES && g[p].parents == []
    ensures GetAncestors(g, b) == [p]
  {
    ParentsBelow(g, b);
    SelectAll(g, [p], TRAVERSED_SOURCES);
    SelectAll(g, [p], ANCESTOR_SOURCES);
    NoParents(g, p);
    assert AncestorsOfEach(g, [p], b) == GetAncestors(g, p) + AncestorsOfEach(g, [], b);
  }

  /** A snapshot whose two parents are both reported lists them, then their
      own ancestors. */
  lemma TwoReportedParents(g: seq<Snapshot>, b: SnapshotId, p: SnapshotId, q: SnapshotId)
    requires WellFormed(g) && b < |g| && g[b].parents == [p, q] && p < |g| && q < |g|
    requires g[p].sourceType in ANCESTOR_SOURCES && g[q].sourceType in ANCESTOR_SOURCES
    ensures GetAncestors(g, b) == [p, q] + (GetAncestors(g, p) + GetAncestors(g, q))
  {
    var ps := g[b].parents;
    assert Below(ps, b) && Below(ps, |g|) by { ParentsBelow(g, b); }
    var parents := SelectBySource(g, ps, TRAVERSED_SOURCES);
    SelectBelow(g, ps, TRAVERSED_SOURCES, b);
    assert GetAncestors(g, b) == SelectBySource(g, parents, ANCESTOR_SOURCES) + AncestorsOfEach(g, parents, b);
    assert parents == ps by { SelectAll(g, ps, TRAVERSED_SOURCES); }
    assert SelectBySource(g, ps, ANCESTOR_SOURCES) == ps by { SelectAll(g, ps, ANCESTOR_SOURCES); }
    assert AncestorsOfEach(g, ps, b) == GetAncestors(g, p) + GetAncestors(g, q) by {
      assert ps[0] == p && ps[1] == q;
      AncestorsOfPair(g, p, q, b);
    }
  }

  /** The result is a list, not a set: in the diamond, 0 is reported once per
      path from 3. */
  lemma DiamondReportsTwice()
    ensures GetAncestors(Diamond(), 3) == [1, 2, 0, 0]
  {
    var g := Diamond();
    ReportedRootParent(g, 1, 0);
    ReportedRootParent(g, 2, 0);
    TwoReportedParents(g, 3, 1, 2);
  }
}
