/** The organization deletion tasks: the chunked delete of an organization's
    inventory (properties, property states, tax lots, tax lot states), the
    delete of the organization and of the users it leaves without any
    organization, and the progress value they report.

    The task queue runs the chunk units of the chord one after another here,
    and the progress cache is the `progress` and `status` fields. */
module Tasks {

  type Id = nat
  type OrgId = nat
  type UserId = nat

  /** A row of one of the four inventory tables: primary key and organization. */
  datatype Row = Row(id: Id, org: OrgId)

  /** The four inventory tables, in the order the chunk units are planned. */
  datatype Kind = Properties | PropertyStates | TaxLots | TaxLotStates

  /** One scheduled chunk delete: (del_ids, prog_key, step, org_pk). */
  datatype ChunkUnit = ChunkUnit(kind: Kind, ids: seq<Id>, step: real)

  /** An OrganizationUser row. */
  datatype Membership = Membership(org: OrgId, user: UserId)

  /** Which rows a chunk unit may delete: those in any organization (the
      property state unit filters on the id alone) or only the given one. */
  datatype Scope = AnyOrg | OnlyOrg(org: OrgId)

  const DEFAULT_CHUNK_SIZE: nat := 100
  const SUCCESS: string := "success"

  // ---------------------------------------------------------------------
  // Table helpers

  /** values_list('id') of the rows of `org`, in table order. */
  function IdsOf(rows: seq<Row>, org: OrgId): (ids: seq<Id>)
    ensures |ids| <= |rows|
  {
    if rows == [] then []
    else (if rows[0].org == org then [rows[0].id] else []) + IdsOf(rows[1..], org)
  }

  /** The collected ids are exactly those of the org's rows. */
  lemma {:induction false} IdsOfMembers(rows: seq<Row>, org: OrgId, x: Id)
    ensures x in IdsOf(rows, org) <==> Row(x, org) in rows
  {
    if rows != [] {
      IdsOfMembers(rows[1..], org, x);
      assert Row(x, org) in rows <==> Row(x, org) == rows[0] || Row(x, org) in rows[1..];
    }
  }

  /** The rows a filter(pk__in=ids[, organization_id=org]).delete() leaves. */
  function Without(rows: seq<Row>, ids: seq<Id>, scope: Scope): (r: seq<Row>)
    ensures |r| <= |rows|
  {
    if rows == [] then []
    else (if rows[0].id in ids && InScope(rows[0], scope) then [] else [rows[0]]) + Without(rows[1..], ids, scope)
  }

  /** A delete keeps exactly the rows it does not match. */
  lemma {:induction false} WithoutMembers(rows: seq<Row>, ids: seq<Id>, scope: Scope, x: Row)
    ensures x in Without(rows, ids, scope) <==> x in rows && !(x.id in ids && InScope(x, scope))
  {
    if rows != [] {
      WithoutMembers(rows[1..], ids, scope, x);
      assert x in rows <==> x == rows[0] || x in rows[1..];
    }
  }

  predicate InScope(x: Row, scope: Scope)
  {
    scope.AnyOrg? || x.org == scope.org
  }

  /** The rows that belong to another organization than `org`. */
  function OtherOrgs(rows: seq<Row>, org: OrgId): seq<Row>
  {
    if rows == [] then []
    else (if rows[0].org == org then [] else [rows[0]]) + OtherOrgs(rows[1..], org)
  }

  /** What is left of a table is exactly its rows of other organizations. */
  lemma {:induction false} OtherOrgsMembers(rows: seq<Row>, org: OrgId, x: Row)
    ensures x in OtherOrgs(rows, org) <==> x in rows && x.org != org
  {
    if rows != [] {
      OtherOrgsMembers(rows[1..], org, x);
      assert x in rows <==> x == rows[0] || x in rows[1..];
    }
  }

  /** Primary keys are unique within a table. */
  ghost predicate UniqueIds(rows: seq<Row>)
  {
    forall i, j :: 0 <= i < |rows| && 0 <= j < |rows| && rows[i].id == rows[j].id ==> i == j
  }

  /** Deleting by two id lists one after the other is deleting by both. */
  lemma {:induction false} WithoutTwice(rows: seq<Row>, a: seq<Id>, b: seq<Id>, scope: Scope)
    ensures Without(Without(rows, a, scope), b, scope) == Without(rows, a + b, scope)
  {
    if rows != [] {
      WithoutTwice(rows[1..], a, b, scope);
      var head := if rows[0].id in a && InScope(rows[0], scope) then [] else [rows[0]];
      WithoutConcat(head, Without(rows[1..], a, scope), b, scope);
      if head != [] {
        assert ([rows[0]] + Without(rows[1..], a, scope))[1..] == Without(rows[1..], a, scope);
      }
    }
  }

  lemma {:induction false} WithoutConcat(x: seq<Row>, y: seq<Row>, ids: seq<Id>, scope: Scope)
    ensures Without(x + y, ids, scope) == Without(x, ids, scope) + Without(y, ids, scope)
  {
    if x == [] {
      assert x + y == y;
    } else {
      var h := if x[0].id in ids && InScope(x[0], scope) then [] else [x[0]];
      assert (x + y)[1..] == x[1..] + y;
      assert Without(x + y, ids, scope) == h + Without(x[1..] + y, ids, scope);
      WithoutConcat(x[1..], y, ids, scope);
      AppendAssoc(h, Without(x[1..], ids, scope), Without(y, ids, scope));
    }
  }

  lemma AppendAssoc<T>(a: seq<T>, b: seq<T>, c: seq<T>)
    ensures a + (b + c) == (a + b) + c
  {
  }

  /** Deleting rows keeps primary keys unique. */
  lemma {:induction false} WithoutUnique(rows: seq<Row>, ids: seq<Id>, scope: Scope)
    requires UniqueIds(rows)
    ensures UniqueIds(Without(rows, ids, scope))
  {
    if rows != [] {
      TailUnique(rows);
      WithoutUnique(rows[1..], ids, scope);
      var rest := Without(rows[1..], ids, scope);
      if !(rows[0].id in ids && InScope(rows[0], scope)) {
        var r := [rows[0]] + rest;
        forall i, j | 0 <= i < |r| && 0 <= j < |r| && r[i].id == r[j].id
          ensures i == j
        {
          if i == 0 && j > 0 {
            WithoutMembers(rows[1..], ids, scope, r[j]);
            HeadIdNotInTail(rows, r[j]);
          } else if j == 0 && i > 0 {
            WithoutMembers(rows[1..], ids, scope, r[i]);
            HeadIdNotInTail(rows, r[i]);
          } else if i > 0 && j > 0 {
            assert rest[i - 1].id == rest[j - 1].id;
          }
        }
      }
    }
  }

  lemma TailUnique(rows: seq<Row>)
    requires UniqueIds(rows) && rows != []
    ensures UniqueIds(rows[1..])
  {
    forall i, j | 0 <= i < |rows[1..]| && 0 <= j < |rows[1..]| && rows[1..][i].id == rows[1..][j].id
      ensures i == j
    {
      assert rows[i + 1].id == rows[j + 1].id;
    }
  }

  /** No later row of a table shares the first row's primary key. */
  lemma HeadIdNotInTail(rows: seq<Row>, x: Row)
    requires UniqueIds(rows) && rows != [] && x in rows[1..]
    ensures x.id != rows[0].id
  {
    var j :| 0 <= j < |rows[1..]| && rows[1..][j] == x;
    assert rows[j + 1] == x;
  }

  /** Deleting the org's own ids within the org leaves exactly the other
      organizations' rows. */
  lemma {:induction false} WithoutOwnIdsInOrg(rows: seq<Row>, org: OrgId)
    ensures Without(rows, IdsOf(rows, org), OnlyOrg(org)) == OtherOrgs(rows, org)
  {
    if rows != [] {
      WithoutOwnIdsInOrg(rows[1..], org);
      var tail, ids := rows[1..], IdsOf(rows[1..], org);
      forall i | 0 <= i < |tail| && tail[i].org == org
        ensures tail[i].id in ids
      {
        IdsOfMembers(tail, org, tail[i].id);
      }
      WithoutPrefix(tail, ids, if rows[0].org == org then [rows[0].id] else [], OnlyOrg(org));
    }
  }

  /** Deleting the org's own ids by id alone also leaves exactly the other
      organizations' rows, because primary keys are unique. */
  lemma {:induction false} WithoutOwnIdsAnyOrg(rows: seq<Row>, org: OrgId)
    requires UniqueIds(rows)
    ensures Without(rows, IdsOf(rows, org), AnyOrg) == OtherOrgs(rows, org)
  {
    if rows != [] {
      TailUnique(rows);
      WithoutOwnIdsAnyOrg(rows[1..], org);
      var tail, ids := rows[1..], IdsOf(rows[1..], org);
      if rows[0].org != org && rows[0].id in ids {
        IdsOfMembers(tail, org, rows[0].id);
        HeadIdNotInTail(rows, Row(rows[0].id, org));
      }
      forall i | 0 <= i < |tail| && rows[0].org == org
        ensures tail[i].id != rows[0].id
      {
        assert tail[i] in tail;
        HeadIdNotInTail(rows, tail[i]);
      }
      WithoutPrefix(tail, ids, if rows[0].org == org then [rows[0].id] else [], AnyOrg);
    }
  }

  /** Adding ids of rows of `org` that are not in `rows` to the deleted list
      changes nothing on the remaining rows, when those rows are all outside
      `org` or the ids are not theirs. */
  lemma {:induction false} WithoutPrefix(rows: seq<Row>, ids: seq<Id>, extra: seq<Id>, scope: Scope)
    requires forall i :: 0 <= i < |rows| && !(rows[i].id in ids && InScope(rows[i], scope)) ==>
      !(rows[i].id in extra && InScope(rows[i], scope))
    ensures Without(rows, extra + ids, scope) == Without(rows, ids, scope)
  {
    if rows != [] {
      assert forall i :: 0 <= i < |rows[1..]| ==> rows[1..][i] == rows[i + 1];
      WithoutPrefix(rows[1..], ids, extra, scope);
    }
  }

  // ---------------------------------------------------------------------
  // The chunk plan

  /** Number of chunks of at most `size` that cover `n` items. */
  function ChunkCount(n: nat, size: nat): nat
    requires size > 0
    decreases n
  {
    if n == 0 then 0 else if n <= size then 1 else 1 + ChunkCount(n - size, size)
  }

  /** batch(xs, size): consecutive slices of `size` items, the last one
      possibly shorter. (The library helper is not part of this model; this is
      the behaviour the task relies on.) */
  function Batch(xs: seq<Id>, size: nat): (r: seq<seq<Id>>)
    requires size > 0
    ensures Flatten(r) == xs
    ensures |r| == ChunkCount(|xs|, size)
    decreases |xs|
  {
    if |xs| == 0 then []
    else if |xs| <= size then
      assert [xs][1..] == [];
      [xs]
    else
      var rest := Batch(xs[size..], size);
      assert ([xs[..size]] + rest)[1..] == rest;
      assert xs == xs[..size] + xs[size..];
      [xs[..size]] + rest
  }

  /** Each batch is non-empty and at most `size` long, and all but the last
      are exactly `size` long. */
  lemma {:induction false} BatchSpec(xs: seq<Id>, size: nat)
    requires size > 0
    ensures forall k :: 0 <= k < |Batch(xs, size)| ==> 0 < |Batch(xs, size)[k]| <= size
    ensures forall k :: 0 <= k < |Batch(xs, size)| - 1 ==> |Batch(xs, size)[k]| == size
    decreases |xs|
  {
    if |xs| > size {
      var rest := Batch(xs[size..], size);
      BatchSpec(xs[size..], size);
      var chunks := [xs[..size]] + rest;
      forall k | 0 < k < |chunks| ensures chunks[k] == rest[k - 1] { }
    }
  }

  function Flatten(chunks: seq<seq<Id>>): seq<Id>
  {
    if chunks == [] then [] else chunks[0] + Flatten(chunks[1..])
  }

  /** One unit of `kind` per chunk, every one with the same step. */
  function Units(kind: Kind, chunks: seq<seq<Id>>, step: real): (us: seq<ChunkUnit>)
    ensures |us| == |chunks|
  {
    seq(|chunks|, k requires 0 <= k < |chunks| => ChunkUnit(kind, chunks[k], step))
  }

  /** The ids the units of `kind` among `us` delete, in plan order. */
  function KindIds(us: seq<ChunkUnit>, kind: Kind): seq<Id>
  {
    if us == [] then []
    else KindIds(us[..|us| - 1], kind) + (if us[|us| - 1].kind == kind then us[|us| - 1].ids else [])
  }

  /** What the units add to the progress counter: step * 100 each. */
  function Increments(us: seq<ChunkUnit>): real
  {
    if us == [] then 0.0 else Increments(us[..|us| - 1]) + us[|us| - 1].step * 100.0
  }

  /** The share of the work one chunk stands for: chunk_size / total. */
  function Step(size: nat, total: nat): real
    requires total > 0
  {
    (size as real) / (total as real)
  }

  /** The plan of delete_organization_inventory for the four id lists. */
  function Plan(p: seq<Id>, ps: seq<Id>, t: seq<Id>, ts: seq<Id>, size: nat, step: real): (r: seq<ChunkUnit>)
    requires size > 0
    ensures |r| == ChunkCount(|p|, size) + ChunkCount(|ps|, size) + ChunkCount(|t|, size) + ChunkCount(|ts|, size)
  {
    Units(Properties, Batch(p, size), step) + Units(PropertyStates, Batch(ps, size), step)
      + Units(TaxLots, Batch(t, size), step) + Units(TaxLotStates, Batch(ts, size), step)
  }

  lemma {:induction false} KindIdsConcat(a: seq<ChunkUnit>, b: seq<ChunkUnit>, kind: Kind)
    ensures KindIds(a + b, kind) == KindIds(a, kind) + KindIds(b, kind)
    decreases |b|
  {
    if b == [] {
      assert a + b == a;
    } else {
      assert (a + b)[..|a + b| - 1] == a + b[..|b| - 1];
      KindIdsConcat(a, b[..|b| - 1], kind);
    }
  }

  lemma {:induction false} KindIdsOfUnits(k: Kind, chunks: seq<seq<Id>>, step: real, kind: Kind)
    ensures KindIds(Units(k, chunks, step), kind) == if k == kind then Flatten(chunks) else []
  {
    if chunks != [] {
      var us := Units(k, chunks, step);
      assert us == [us[0]] + Units(k, chunks[1..], step);
      KindIdsOfUnits(k, chunks[1..], step, kind);
      KindIdsConcat([us[0]], Units(k, chunks[1..], step), kind);
      assert KindIds([us[0]], kind) == (if k == kind then chunks[0] else []) by {
        assert [us[0]][..0] == [];
      }
    }
  }

  /** Each list's chunks concatenate back to that list, so the plan deletes,
      per table, exactly the ids collected for it. */
  lemma PlanCoversIds(p: seq<Id>, ps: seq<Id>, t: seq<Id>, ts: seq<Id>, size: nat, step: real)
    requires size > 0
    ensures KindIds(Plan(p, ps, t, ts, size, step), Properties) == p
    ensures KindIds(Plan(p, ps, t, ts, size, step), PropertyStates) == ps
    ensures KindIds(Plan(p, ps, t, ts, size, step), TaxLots) == t
    ensures KindIds(Plan(p, ps, t, ts, size, step), TaxLotStates) == ts
  {
    var b1, b2, b3, b4 := Batch(p, size), Batch(ps, size), Batch(t, size), Batch(ts, size);
    var u1, u2, u3, u4 := Units(Properties, b1, step), Units(PropertyStates, b2, step),
      Units(TaxLots, b3, step), Units(TaxLotStates, b4, step);
    assert Plan(p, ps, t, ts, size, step) == u1 + u2 + u3 + u4;
    OneKind(u1, u2, u3, u4, b1, b2, b3, b4, step, Properties);
    OneKind(u1, u2, u3, u4, b1, b2, b3, b4, step, PropertyStates);
    OneKind(u1, u2, u3, u4, b1, b2, b3, b4, step, TaxLots);
    OneKind(u1, u2, u3, u4, b1, b2, b3, b4, step, TaxLotStates);
  }

  lemma OneKind(u1: seq<ChunkUnit>, u2: seq<ChunkUnit>, u3: seq<ChunkUnit>, u4: seq<ChunkUnit>,
                b1: seq<seq<Id>>, b2: seq<seq<Id>>, b3: seq<seq<Id>>, b4: seq<seq<Id>>, step: real, kind: Kind)
    requires u1 == Units(Properties, b1, step) && u2 == Units(PropertyStates, b2, step)
    requires u3 == Units(TaxLots, b3, step) && u4 == Units(TaxLotStates, b4, step)
    ensures KindIds(u1 + u2 + u3 + u4, kind)
      == match kind
         case Properties => Flatten(b1)
         case PropertyStates => Flatten(b2)
         case TaxLots => Flatten(b3)
         case TaxLotStates => Flatten(b4)
  {
    KindIdsOfFour(u1, u2, u3, u4, kind);
    KindIdsOfUnits(Properties, b1, step, kind);
    KindIdsOfUnits(PropertyStates, b2, step, kind);
    KindIdsOfUnits(TaxLots, b3, step, kind);
    KindIdsOfUnits(TaxLotStates, b4, step, kind);
    match kind
    case Properties => assert Flatten(b1) + [] + [] + [] == Flatten(b1);
    case PropertyStates => assert [] + Flatten(b2) + [] + [] == Flatten(b2);
    case TaxLots => assert [] + [] + Flatten(b3) + [] == Flatten(b3);
    case TaxLotStates => assert [] + [] + [] + Flatten(b4) == Flatten(b4);
  }

  lemma KindIdsOfFour(u1: seq<ChunkUnit>, u2: seq<ChunkUnit>, u3: seq<ChunkUnit>, u4: seq<ChunkUnit>, kind: Kind)
    ensures KindIds(u1 + u2 + u3 + u4, kind) == KindIds(u1, kind) + KindIds(u2, kind) + KindIds(u3, kind) + KindIds(u4, kind)
  {
    KindIdsConcat(u1 + u2 + u3, u4, kind);
    KindIdsConcat(u1 + u2, u3, kind);
    KindIdsConcat(u1, u2, kind);
  }

  predicate MultipleOf(n: nat, size: nat)
    requires size > 0
  {
    n % size == 0
  }

  /** Chunks of `size` cover at least `n` items, and exactly `n` when `size`
      divides `n`. */
  lemma {:induction false} ChunksCover(n: nat, size: nat)
    requires size > 0
    ensures ChunkCount(n, size) * size >= n
    ensures ChunkCount(n, size) * size == n <==> MultipleOf(n, size)
    decreases n
  {
    if n > size {
      ChunksCover(n - size, size);
      assert ChunkCount(n, size) * size == size + ChunkCount(n - size, size) * size;
      var q, r := (n - size) / size, (n - size) % size;
      assert (q + 1) * size + r == n;
      ModOfSum(q + 1, r, size);
    } else if n == size {
      ModOfSum(1, 0, size);
    } else if n > 0 {
      ModOfSum(0, n, size);
    }
  }

  /** The remainder of q * size + r is r when 0 <= r < size. */
  lemma ModOfSum(q: int, r: int, size: int)
    requires size > 0 && 0 <= r < size
    ensures (q * size + r) % size == r
  {
    var n := q * size + r;
    var q', r' := n / size, n % size;
    assert n == q' * size + r';
    if q > q' {
      MulGap(q, q', size);
    } else if q < q' {
      MulGap(q', q, size);
    }
  }

  lemma MulGap(a: int, b: int, size: int)
    requires a > b && size > 0
    ensures a * size - b * size >= size
  {
    var d := a - b;
    assert a * size == (b + d) * size;
    assert (b + d) * size == b * size + d * size;
    AtLeastOnce(d, size);
  }

  lemma {:induction false} AtLeastOnce(d: int, size: int)
    requires d >= 1 && size > 0
    ensures d * size >= size
    decreases d
  {
    if d > 1 {
      AtLeastOnce(d - 1, size);
      assert d * size == (d - 1) * size + size;
    }
  }

  /** Every unit adds the same step, so the units add up to |us| * step * 100. */
  lemma {:induction false} IncrementsOfEqualSteps(us: seq<ChunkUnit>, step: real)
    requires SameStep(us, step)
    ensures Increments(us) == (|us| as real) * step * 100.0
  {
    if us != [] {
      IncrementsOfEqualSteps(us[..|us| - 1], step);
    }
  }

  /** The chunk units of a plan add at least 100 to the progress, and exactly
      100 when every list length is a multiple of the chunk size: the last,
      shorter chunk of a list still adds a full step. */
  lemma PlanIncrements(p: seq<Id>, ps: seq<Id>, t: seq<Id>, ts: seq<Id>, size: nat)
    requires size > 0
    requires |p| + |ps| + |t| + |ts| > 0
    ensures var total := |p| + |ps| + |t| + |ts|;
      var inc := Increments(Plan(p, ps, t, ts, size, Step(size, total)));
      inc >= 100.0 &&
      (inc == 100.0 <==> MultipleOf(|p|, size) && MultipleOf(|ps|, size) && MultipleOf(|t|, size) && MultipleOf(|ts|, size))
  {
    var total := |p| + |ps| + |t| + |ts|;
    var step := Step(size, total);
    var plan := Plan(p, ps, t, ts, size, step);
    PlanShape(p, ps, t, ts, size, step);
    UnitsProgress(plan, size, total, step);
    CountsCover(|p|, |ps|, |t|, |ts|, size, |plan|);
  }

  /** Units of equal step size / total reach 100 exactly when their chunks
      cover the total. */
  lemma UnitsProgress(units: seq<ChunkUnit>, size: nat, total: nat, step: real)
    requires total > 0
    requires step == Step(size, total)
    requires SameStep(units, step)
    ensures Increments(units) >= 100.0 <==> |units| * size >= total
    ensures Increments(units) == 100.0 <==> |units| * size == total
  {
    IncrementsOfEqualSteps(units, step);
    RatioTimesHundred(|units|, size, total, step, Increments(units));
  }

  /** Every unit of a plan has the same step. */
  lemma PlanShape(p: seq<Id>, ps: seq<Id>, t: seq<Id>, ts: seq<Id>, size: nat, step: real)
    requires size > 0
    ensures SameStep(Plan(p, ps, t, ts, size, step), step)
  {
    var b1, b2, b3, b4 := Batch(p, size), Batch(ps, size), Batch(t, size), Batch(ts, size);
    var u1, u2, u3, u4 := Units(Properties, b1, step), Units(PropertyStates, b2, step),
      Units(TaxLots, b3, step), Units(TaxLotStates, b4, step);
    assert Plan(p, ps, t, ts, size, step) == u1 + u2 + u3 + u4;
    SameStepConcat(u1, u2, step);
    SameStepConcat(u1 + u2, u3, step);
    SameStepConcat(u1 + u2 + u3, u4, step);
  }

  /** Every unit of `us` adds the same step. */
  predicate SameStep(us: seq<ChunkUnit>, step: real)
  {
    forall k :: 0 <= k < |us| ==> us[k].step == step
  }

  lemma SameStepConcat(a: seq<ChunkUnit>, b: seq<ChunkUnit>, step: real)
    requires SameStep(a, step) && SameStep(b, step)
    ensures SameStep(a + b, step)
  {
    forall k | 0 <= k < |a + b| ensures (a + b)[k].step == step {
      if k >= |a| {
        assert (a + b)[k] == b[k - |a|];
      }
    }
  }

  /** The four lists' chunks together cover at least all ids, exactly all of
      them when every length is a multiple of the chunk size. */
  lemma CountsCover(a: nat, b: nat, c: nat, d: nat, size: nat, n: nat)
    requires size > 0
    requires n == ChunkCount(a, size) + ChunkCount(b, size) + ChunkCount(c, size) + ChunkCount(d, size)
    ensures n * size >= a + b + c + d
    ensures n * size == a + b + c + d <==> MultipleOf(a, size) && MultipleOf(b, size) && MultipleOf(c, size) && MultipleOf(d, size)
  {
    ChunksCover(a, size);
    ChunksCover(b, size);
    ChunksCover(c, size);
    ChunksCover(d, size);
    CoverSum(ChunkCount(a, size), ChunkCount(b, size), ChunkCount(c, size), ChunkCount(d, size), a, b, c, d, size, n,
      MultipleOf(a, size), MultipleOf(b, size), MultipleOf(c, size), MultipleOf(d, size));
  }

  /** CountsCover over plain numbers: `ma` .. `md` say which cover is exact. */
  lemma CoverSum(ca: int, cb: int, cc: int, cd: int, a: int, b: int, c: int, d: int, size: int, n: int,
                 ma: bool, mb: bool, mc: bool, md: bool)
    requires n == ca + cb + cc + cd
    requires ca * size >= a && (ca * size == a <==> ma)
    requires cb * size >= b && (cb * size == b <==> mb)
    requires cc * size >= c && (cc * size == c <==> mc)
    requires cd * size >= d && (cd * size == d <==> md)
    ensures n * size >= a + b + c + d
    ensures n * size == a + b + c + d <==> ma && mb && mc && md
  {
    Distribute(ca, cb, cc, cd, size);
    SumCovers(ca * size, cb * size, cc * size, cd * size, a, b, c, d);
  }

  lemma Distribute(ca: int, cb: int, cc: int, cd: int, size: int)
    ensures (ca + cb + cc + cd) * size == ca * size + cb * size + cc * size + cd * size
  {
  }

  /** Four covers of four counts cover their sum, exactly when each is exact. */
  lemma SumCovers(xa: int, xb: int, xc: int, xd: int, a: int, b: int, c: int, d: int)
    requires xa >= a && xb >= b && xc >= c && xd >= d
    ensures xa + xb + xc + xd >= a + b + c + d
    ensures xa + xb + xc + xd == a + b + c + d <==> xa == a && xb == b && xc == c && xd == d
  {
  }

  /** n steps of size / total percent reach 100 exactly when n * size reaches total. */
  lemma RatioTimesHundred(n: nat, size: nat, total: nat, step: real, inc: real)
    requires total > 0
    requires step == Step(size, total)
    requires inc == (n as real) * step * 100.0
    ensures inc >= 100.0 <==> n * size >= total
    ensures inc == 100.0 <==> n * size == total
  {
    assert step * (total as real) == size as real;
    assert inc * (total as real) == ((n * size) as real) * 100.0;
  }

  // ---------------------------------------------------------------------
  // The tables, the progress cache and the tasks

  class OrgStore {
    var properties: seq<Row>
    var propertyStates: seq<Row>
    var taxlots: seq<Row>
    var taxlotStates: seq<Row>
    var organizations: seq<OrgId>
    var memberships: seq<Membership>
    var users: seq<UserId>
    /** The progress cache entry of the deletion: its progress and status. */
    var progress: real
    var status: string

    ghost predicate Valid()
      reads this`properties, this`propertyStates, this`taxlots, this`taxlotStates
    {
      UniqueIds(properties) && UniqueIds(propertyStates) && UniqueIds(taxlots) && UniqueIds(taxlotStates)
    }

    /** The property state unit is the one that deletes by id alone. */
    static function ScopeOf(kind: Kind, org: OrgId): Scope
    {
      if kind == PropertyStates then AnyOrg else OnlyOrg(org)
    }

    constructor (properties: seq<Row>, propertyStates: seq<Row>, taxlots: seq<Row>, taxlotStates: seq<Row>,
                 organizations: seq<OrgId>, memberships: seq<Membership>, users: seq<UserId>)
      requires UniqueIds(properties) && UniqueIds(propertyStates) && UniqueIds(taxlots) && UniqueIds(taxlotStates)
      ensures Valid()
      ensures this.properties == properties && this.propertyStates == propertyStates
      ensures this.taxlots == taxlots && this.taxlotStates == taxlotStates
      ensures this.organizations == organizations && this.memberships == memberships && this.users == users
      ensures progress == 0.0 && status == SUCCESS
    {
      this.properties, this.propertyStates, this.taxlots, this.taxlotStates := properties, propertyStates, taxlots, taxlotStates;
      this.organizations, this.memberships, this.users := organizations, memberships, users;
      progress, status := 0.0, SUCCESS;
    }

    /** set_cache(key, status, {progress}) */
    method SetCache(newStatus: string, newProgress: real)
      modifies this`progress, this`status
      ensures status == newStatus && progress == newProgress
    {
      status, progress := newStatus, newProgress;
    }

    /** _delete_organization_property_chunk */
    method DeletePropertyChunk(ids: seq<Id>, increment: real, org: OrgId)
      requires Valid()
      modifies this`properties, this`progress
      ensures Valid()
      ensures properties == Without(old(properties), ids, OnlyOrg(org))
      ensures progress == old(progress) + increment * 100.0
    {
      WithoutUnique(properties, ids, OnlyOrg(org));
      properties := Without(properties, ids, OnlyOrg(org));
      progress := progress + increment * 100.0;
    }

    /** _delete_organization_property_state_chunk: by id only. */
    method DeletePropertyStateChunk(ids: seq<Id>, increment: real, org: OrgId)
      requires Valid()
      modifies this`propertyStates, this`progress
      ensures Valid()
      ensures propertyStates == Without(old(propertyStates), ids, AnyOrg)
      ensures progress == old(progress) + increment * 100.0
    {
      WithoutUnique(propertyStates, ids, AnyOrg);
      propertyStates := Without(propertyStates, ids, AnyOrg);
      progress := progress + increment * 100.0;
    }

    /** _delete_organization_taxlot_chunk */
    method DeleteTaxLotChunk(ids: seq<Id>, increment: real, org: OrgId)
      requires Valid()
      modifies this`taxlots, this`progress
      ensures Valid()
      ensures taxlots == Without(old(taxlots), ids, OnlyOrg(org))
      ensures progress == old(progress) + increment * 100.0
    {
      WithoutUnique(taxlots, ids, OnlyOrg(org));
      taxlots := Without(taxlots, ids, OnlyOrg(org));
      progress := progress + increment * 100.0;
    }

    /** _delete_organization_taxlot_state_chunk */
    method DeleteTaxLotStateChunk(ids: seq<Id>, increment: real, org: OrgId)
      requires Valid()
      modifies this`taxlotStates, this`progress
      ensures Valid()
      ensures taxlotStates == Without(old(taxlotStates), ids, OnlyOrg(org))
      ensures progress == old(progress) + increment * 100.0
    {
      WithoutUnique(taxlotStates, ids, OnlyOrg(org));
      taxlotStates := Without(taxlotStates, ids, OnlyOrg(org));
      progress := progress + increment * 100.0;
    }

    /** Runs one scheduled unit: the chunk task of its kind. */
    method RunUnit(u: ChunkUnit, org: OrgId)
      requires Valid()
      modifies this`properties, this`propertyStates, this`taxlots, this`taxlotStates, this`progress
      ensures Valid()
      ensures properties == Delete(old(properties), u, Properties, org)
      ensures propertyStates == Delete(old(propertyStates), u, PropertyStates, org)
      ensures taxlots == Delete(old(taxlots), u, TaxLots, org)
      ensures taxlotStates == Delete(old(taxlotStates), u, TaxLotStates, org)
      ensures progress == old(progress) + u.step * 100.0
    {
      match u.kind
      case Properties => DeletePropertyChunk(u.ids, u.step, org);
      case PropertyStates => DeletePropertyStateChunk(u.ids, u.step, org);
      case TaxLots => DeleteTaxLotChunk(u.ids, u.step, org);
      case TaxLotStates => DeleteTaxLotStateChunk(u.ids, u.step, org);
    }

    /** The chord: every unit runs, here one after another. */
    method RunChord(units: seq<ChunkUnit>, org: OrgId)
      requires Valid()
      modifies this`properties, this`propertyStates, this`taxlots, this`taxlotStates, this`progress
      ensures Valid()
      ensures properties == Without(old(properties), KindIds(units, Properties), OnlyOrg(org))
      ensures propertyStates == Without(old(propertyStates), KindIds(units, PropertyStates), AnyOrg)
      ensures taxlots == Without(old(taxlots), KindIds(units, TaxLots), OnlyOrg(org))
      ensures taxlotStates == Without(old(taxlotStates), KindIds(units, TaxLotStates), OnlyOrg(org))
      ensures progress == old(progress) + Increments(units)
    {
      WithoutNothing(properties, OnlyOrg(org));
      WithoutNothing(propertyStates, AnyOrg);
      WithoutNothing(taxlots, OnlyOrg(org));
      WithoutNothing(taxlotStates, OnlyOrg(org));
      var i := 0;
      while i < |units|
        invariant 0 <= i <= |units|
        invariant Valid()
        invariant properties == Without(old(properties), KindIds(units[..i], Properties), OnlyOrg(org))
        invariant propertyStates == Without(old(propertyStates), KindIds(units[..i], PropertyStates), AnyOrg)
        invariant taxlots == Without(old(taxlots), KindIds(units[..i], TaxLots), OnlyOrg(org))
        invariant taxlotStates == Without(old(taxlotStates), KindIds(units[..i], TaxLotStates), OnlyOrg(org))
        invariant progress == old(progress) + Increments(units[..i])
      {
        RunUnit(units[i], org);
        ChordStep(old(properties), units, i, Properties, org);
        ChordStep(old(propertyStates), units, i, PropertyStates, org);
        ChordStep(old(taxlots), units, i, TaxLots, org);
        ChordStep(old(taxlotStates), units, i, TaxLotStates, org);
        assert units[..i + 1][..i] == units[..i];
        i := i + 1;
      }
      assert units[..i] == units;
    }

    /** _finish_delete: progress 100, status success. */
    method FinishDelete()
      modifies this`progress, this`status
      ensures progress == 100.0 && status == SUCCESS
    {
      SetCache(SUCCESS, 100.0);
    }

    /** How many inventory rows `org` owns across the four tables. */
    function OrgTotal(org: OrgId): nat
      reads this`properties, this`propertyStates, this`taxlots, this`taxlotStates
    {
      |IdsOf(properties, org)| + |IdsOf(propertyStates, org)| + |IdsOf(taxlots, org)| + |IdsOf(taxlotStates, org)|
    }

    /** The units delete_organization_inventory schedules for `org`: none when
        it owns no rows, otherwise one per chunk of each id list. */
    function OrgPlan(org: OrgId, chunkSize: nat): seq<ChunkUnit>
      requires chunkSize > 0
      reads this`properties, this`propertyStates, this`taxlots, this`taxlotStates
    {
      var total := OrgTotal(org);
      if total == 0 then []
      else Plan(IdsOf(properties, org), IdsOf(propertyStates, org), IdsOf(taxlots, org),
                IdsOf(taxlotStates, org), chunkSize, Step(chunkSize, total))
    }

    /** The chunk plan delete_organization_inventory schedules: the four id
        lists of `org`, their total and the units. */
    method PlanInventory(org: OrgId, chunkSize: nat) returns (total: nat, units: seq<ChunkUnit>)
      requires chunkSize > 0
      ensures total == OrgTotal(org)
      ensures units == OrgPlan(org, chunkSize)
    {
      var propertyIds := IdsOf(properties, org);
      var propertyStateIds := IdsOf(propertyStates, org);
      var taxlotIds := IdsOf(taxlots, org);
      var taxlotStateIds := IdsOf(taxlotStates, org);
      total := |propertyIds| + |propertyStateIds| + |taxlotIds| + |taxlotStateIds|;
      units := [];
      if total == 0 {
        return;
      }
      var step := Step(chunkSize, total);
      units := AppendUnits(units, Properties, propertyIds, chunkSize, step);
      assert units == Units(Properties, Batch(propertyIds, chunkSize), step);
      units := AppendUnits(units, PropertyStates, propertyStateIds, chunkSize, step);
      units := AppendUnits(units, TaxLots, taxlotIds, chunkSize, step);
      units := AppendUnits(units, TaxLotStates, taxlotStateIds, chunkSize, step);
    }

    /** delete_organization_inventory: plan, run the chord, then its
        _finish_delete callback. */
    method DeleteOrganizationInventory(org: OrgId, chunkSize: nat) returns (units: seq<ChunkUnit>)
      requires Valid() && chunkSize > 0
      modifies this`properties, this`propertyStates, this`taxlots, this`taxlotStates, this`progress, this`status
      ensures Valid()
      ensures units == old(OrgPlan(org, chunkSize))
      ensures properties == OtherOrgs(old(properties), org)
      ensures propertyStates == OtherOrgs(old(propertyStates), org)
      ensures taxlots == OtherOrgs(old(taxlots), org)
      ensures taxlotStates == OtherOrgs(old(taxlotStates), org)
      ensures progress == 100.0 && status == SUCCESS
    {
      var total;
      total, units := PlanInventory(org, chunkSize);
      if total == 0 {
        SetCache(SUCCESS, 100.0);
        NoOwnRows(properties, org);
        NoOwnRows(propertyStates, org);
        NoOwnRows(taxlots, org);
        NoOwnRows(taxlotStates, org);
        return;
      }
      SetCache(SUCCESS, 0.0);
      PlanDeletesOrg(properties, propertyStates, taxlots, taxlotStates, org, chunkSize, Step(chunkSize, total));
      RunChord(units, org);
      FinishDelete();
    }

    /** _delete_organization_related_data: delete the organization (its
        OrganizationUser rows go with it), then every former member that no
        longer belongs to any organization. The organization must exist
        (Organization.objects.get raises otherwise: `ok` is false and nothing
        changes). */
    method DeleteOrganizationRelatedData(org: OrgId) returns (ok: bool)
      modifies this`organizations, this`memberships, this`users, this`progress, this`status
      ensures ok <==> org in old(organizations)
      ensures !ok ==> organizations == old(organizations) && memberships == old(memberships)
                      && users == old(users) && progress == old(progress) && status == old(status)
      ensures ok ==> organizations == RemoveOrg(old(organizations), org)
      ensures ok ==> memberships == OtherOrgMemberships(old(memberships), org)
      ensures ok ==> users == DropAbandoned(old(users), MembersOf(old(users), old(memberships), org), memberships)
      ensures ok ==> progress == 100.0 && status == SUCCESS
    {
      if org !in organizations {
        return false;
      }
      var former := MembersOf(users, memberships, org);
      organizations := RemoveOrg(organizations, org);
      memberships := OtherOrgMemberships(memberships, org);
      var i := 0;
      while i < |former|
        invariant 0 <= i <= |former|
        invariant organizations == RemoveOrg(old(organizations), org)
        invariant memberships == OtherOrgMemberships(old(memberships), org)
        invariant users == DropAbandoned(old(users), former[..i], memberships)
      {
        var user := former[i];
        assert former[..i + 1][..i] == former[..i];
        if !HasMembership(memberships, user) {
          users := RemoveUser(users, user);
        }
        i := i + 1;
      }
      assert former[..i] == former;
      SetCache(SUCCESS, 100.0);
      ok := true;
    }

    /** delete_organization: reset progress, then the chain inventory ->
        related data -> finish. The chain passes no chunk size to the
        inventory task, which therefore uses its default of 100 whatever
        `chunkSize` is. */
    method DeleteOrganization(org: OrgId, chunkSize: nat) returns (ok: bool)
      requires Valid()
      modifies this
      ensures Valid()
      ensures properties == OtherOrgs(old(properties), org)
      ensures propertyStates == OtherOrgs(old(propertyStates), org)
      ensures taxlots == OtherOrgs(old(taxlots), org)
      ensures taxlotStates == OtherOrgs(old(taxlotStates), org)
      ensures ok <==> org in old(organizations)
      ensures !ok ==> organizations == old(organizations) && memberships == old(memberships) && users == old(users)
      ensures ok ==> organizations == RemoveOrg(old(organizations), org)
      ensures ok ==> memberships == OtherOrgMemberships(old(memberships), org)
      ensures ok ==> users == DropAbandoned(old(users), MembersOf(old(users), old(memberships), org), memberships)
      ensures progress == 100.0 && status == SUCCESS
    {
      SetCache(SUCCESS, 0.0);
      var _ := DeleteOrganizationInventory(org, DEFAULT_CHUNK_SIZE);
      ok := DeleteOrganizationRelatedData(org);
      if ok {
        FinishDelete();
      }
    }
  }

  /** The loop body of delete_organization_inventory: one unit per batch. */
  method AppendUnits(tasks: seq<ChunkUnit>, kind: Kind, ids: seq<Id>, chunkSize: nat, step: real)
    returns (out: seq<ChunkUnit>)
    requires chunkSize > 0
    ensures out == tasks + Units(kind, Batch(ids, chunkSize), step)
  {
    var chunks := Batch(ids, chunkSize);
    out := tasks;
    var i := 0;
    while i < |chunks|
      invariant 0 <= i <= |chunks|
      invariant out == tasks + Units(kind, chunks[..i], step)
    {
      out := out + [ChunkUnit(kind, chunks[i], step)];
      i := i + 1;
    }
    assert chunks[..i] == chunks;
  }

  /** Running the plan of `org` over the four tables leaves, in each, exactly
      the rows of the other organizations. */
  lemma PlanDeletesOrg(p: seq<Row>, ps: seq<Row>, t: seq<Row>, ts: seq<Row>, org: OrgId, size: nat, step: real)
    requires size > 0 && UniqueIds(ps)
    ensures Without(p, KindIds(Plan(IdsOf(p, org), IdsOf(ps, org), IdsOf(t, org), IdsOf(ts, org), size, step), Properties), OnlyOrg(org))
      == OtherOrgs(p, org)
    ensures Without(ps, KindIds(Plan(IdsOf(p, org), IdsOf(ps, org), IdsOf(t, org), IdsOf(ts, org), size, step), PropertyStates), AnyOrg)
      == OtherOrgs(ps, org)
    ensures Without(t, KindIds(Plan(IdsOf(p, org), IdsOf(ps, org), IdsOf(t, org), IdsOf(ts, org), size, step), TaxLots), OnlyOrg(org))
      == OtherOrgs(t, org)
    ensures Without(ts, KindIds(Plan(IdsOf(p, org), IdsOf(ps, org), IdsOf(t, org), IdsOf(ts, org), size, step), TaxLotStates), OnlyOrg(org))
      == OtherOrgs(ts, org)
  {
    PlanCoversIds(IdsOf(p, org), IdsOf(ps, org), IdsOf(t, org), IdsOf(ts, org), size, step);
    WithoutOwnIdsInOrg(p, org);
    WithoutOwnIdsAnyOrg(ps, org);
    WithoutOwnIdsInOrg(t, org);
    WithoutOwnIdsInOrg(ts, org);
  }

  /** What one unit leaves of the table of `kind`. */
  function Delete(rows: seq<Row>, u: ChunkUnit, kind: Kind, org: OrgId): seq<Row>
  {
    if u.kind == kind then Without(rows, u.ids, OrgStore.ScopeOf(kind, org)) else rows
  }

  /** One more unit of the chord extends the ids deleted from each table. */
  lemma ChordStep(rows: seq<Row>, units: seq<ChunkUnit>, i: nat, kind: Kind, org: OrgId)
    requires i < |units|
    ensures var scope := OrgStore.ScopeOf(kind, org);
      Delete(Without(rows, KindIds(units[..i], kind), scope), units[i], kind, org)
      == Without(rows, KindIds(units[..i + 1], kind), scope)
  {
    var scope := OrgStore.ScopeOf(kind, org);
    var pre := KindIds(units[..i], kind);
    assert units[..i + 1][..i] == units[..i];
    var extra := if units[i].kind == kind then units[i].ids else [];
    assert KindIds(units[..i + 1], kind) == pre + extra;
    WithoutTwice(rows, pre, extra, scope);
    if units[i].kind != kind {
      assert pre + [] == pre;
      WithoutNothing(Without(rows, pre, scope), scope);
    }
  }

  lemma WithoutNothing(rows: seq<Row>, scope: Scope)
    ensures Without(rows, [], scope) == rows
  {
  }

  lemma {:induction false} NoOwnRows(rows: seq<Row>, org: OrgId)
    requires |IdsOf(rows, org)| == 0
    ensures OtherOrgs(rows, org) == rows
  {
    if rows != [] {
      NoOwnRows(rows[1..], org);
      assert rows == [rows[0]] + rows[1..];
    }
  }

  // ---------------------------------------------------------------------
  // Organizations and users

  function RemoveOrg(orgs: seq<OrgId>, org: OrgId): seq<OrgId>
  {
    if orgs == [] then [] else (if orgs[0] == org then [] else [orgs[0]]) + RemoveOrg(orgs[1..], org)
  }

  /** Organization.delete() removes exactly that organization. */
  lemma {:induction false} RemoveOrgMembers(orgs: seq<OrgId>, org: OrgId, o: OrgId)
    ensures o in RemoveOrg(orgs, org) <==> o in orgs && o != org
  {
    if orgs != [] {
      RemoveOrgMembers(orgs[1..], org, o);
      assert o in orgs <==> o == orgs[0] || o in orgs[1..];
    }
  }

  /** The OrganizationUser rows left once the organization is deleted. */
  function OtherOrgMemberships(ms: seq<Membership>, org: OrgId): seq<Membership>
  {
    if ms == [] then [] else (if ms[0].org == org then [] else [ms[0]]) + OtherOrgMemberships(ms[1..], org)
  }

  /** The cascade removes exactly the organization's OrganizationUser rows. */
  lemma {:induction false} OtherOrgMembershipsMembers(ms: seq<Membership>, org: OrgId, m: Membership)
    ensures m in OtherOrgMemberships(ms, org) <==> m in ms && m.org != org
  {
    if ms != [] {
      OtherOrgMembershipsMembers(ms[1..], org, m);
      assert m in ms <==> m == ms[0] || m in ms[1..];
    }
  }

  predicate HasMembership(ms: seq<Membership>, u: UserId)
  {
    exists i :: 0 <= i < |ms| && ms[i].user == u
  }

  /** The users of the table that have an OrganizationUser row in `org`, in
      table order. */
  function MembersOf(users: seq<UserId>, ms: seq<Membership>, org: OrgId): seq<UserId>
  {
    if users == [] then []
    else (if Membership(org, users[0]) in ms then [users[0]] else []) + MembersOf(users[1..], ms, org)
  }

  /** The users collected are exactly the organization's members. */
  lemma {:induction false} MembersOfMembers(users: seq<UserId>, ms: seq<Membership>, org: OrgId, u: UserId)
    ensures u in MembersOf(users, ms, org) <==> u in users && Membership(org, u) in ms
  {
    if users != [] {
      MembersOfMembers(users[1..], ms, org, u);
      assert u in users <==> u == users[0] || u in users[1..];
    }
  }

  function RemoveUser(users: seq<UserId>, u: UserId): seq<UserId>
  {
    if users == [] then [] else (if users[0] == u then [] else [users[0]]) + RemoveUser(users[1..], u)
  }

  /** user.delete() removes exactly that user. */
  lemma {:induction false} RemoveUserMembers(users: seq<UserId>, u: UserId, v: UserId)
    ensures v in RemoveUser(users, u) <==> v in users && v != u
  {
    if users != [] {
      RemoveUserMembers(users[1..], u, v);
      assert v in users <==> v == users[0] || v in users[1..];
    }
  }

  /** The user table after the loop over `former`: each one without any
      OrganizationUser row left is deleted. */
  function DropAbandoned(users: seq<UserId>, former: seq<UserId>, ms: seq<Membership>): seq<UserId>
  {
    if former == [] then users
    else
      var rest := DropAbandoned(users, former[..|former| - 1], ms);
      var u := former[|former| - 1];
      if HasMembership(ms, u) then rest else RemoveUser(rest, u)
  }

  /** The loop deletes exactly the users of `former` without memberships. */
  lemma {:induction false} DropAbandonedMembers(users: seq<UserId>, former: seq<UserId>, ms: seq<Membership>, u: UserId)
    ensures u in DropAbandoned(users, former, ms) <==> u in users && !(u in former && !HasMembership(ms, u))
  {
    if former != [] {
      var init := former[..|former| - 1];
      DropAbandonedMembers(users, init, ms, u);
      RemoveUserMembers(DropAbandoned(users, init, ms), former[|former| - 1], u);
      assert u in former <==> u in init || u == former[|former| - 1] by {
        assert former == init + [former[|former| - 1]];
      }
    }
  }

  /** After the loop, a user remains exactly when it is not abandoned by the
      deletion of `org`. */
  lemma UsersLeft(users: seq<UserId>, ms: seq<Membership>, org: OrgId, u: UserId)
    ensures u in DropAbandoned(users, MembersOf(users, ms, org), OtherOrgMemberships(ms, org))
      <==> u in users && !Abandoned(ms, org, u)
  {
    DropAbandonedMembers(users, MembersOf(users, ms, org), OtherOrgMemberships(ms, org), u);
    MembersOfMembers(users, ms, org, u);
    AbandonedIff(ms, org, u);
  }

  /** A member of `org` with no membership in any other organization. */
  ghost predicate Abandoned(ms: seq<Membership>, org: OrgId, u: UserId)
  {
    Membership(org, u) in ms && forall m :: m in ms && m.user == u ==> m.org == org
  }

  lemma AbandonedIff(ms: seq<Membership>, org: OrgId, u: UserId)
    ensures Abandoned(ms, org, u) <==> Membership(org, u) in ms && !HasMembership(OtherOrgMemberships(ms, org), u)
  {
    var rest := OtherOrgMemberships(ms, org);
    if HasMembership(rest, u) {
      var i :| 0 <= i < |rest| && rest[i].user == u;
      assert rest[i] in rest;
      OtherOrgMembershipsMembers(ms, org, rest[i]);
    }
    if !Abandoned(ms, org, u) && Membership(org, u) in ms {
      var m :| m in ms && m.user == u && m.org != org;
      OtherOrgMembershipsMembers(ms, org, m);
      assert m in rest;
      var i :| 0 <= i < |rest| && rest[i] == m;
    }
  }
}
