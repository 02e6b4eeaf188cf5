// The provisioning model: a linear program over miss-ratio curves, built row by row, and what its rows say.
module Provision {

  // A measured point of a miss-ratio curve.
  datatype Point = Point(size: nat, ratio: real)

  datatype Rel = GE | LE | EQ

  datatype Term = Term(col: nat, coef: real)

  datatype Row = Row(terms: seq<Term>, rel: Rel, rhs: real)

  // Columns are counted from 1; each tenant has six: the two sizes, the two miss ratios, latency and cost.
  const L1: nat := 1
  const L2: nat := 2
  const MR1: nat := 3
  const MR2: nat := 4
  const LAT: nat := 5
  const COST: nat := 6

  function Col(i: nat, which: nat): nat { 6 * i + which }

  // ---- the rows ----

  function SegmentRow(i: nat, size: nat, mr: nat, p: Point, q: Point): Row {
    Row([Term(Col(i, size), p.ratio - q.ratio), Term(Col(i, mr), q.size as real - p.size as real)], GE,
        p.ratio * q.size as real - p.size as real * q.ratio)
  }

  function SegmentRows(i: nat, mrc: seq<Point>): seq<Row> {
    if |mrc| < 2 then []
    else
      var n := |mrc| - 1;
      SegmentRows(i, mrc[..n]) + [SegmentRow(i, L1, MR1, mrc[n - 1], mrc[n]), SegmentRow(i, L2, MR2, mrc[n - 1],
          mrc[n])]
  }

  function BoundRows(i: nat, front: nat, back: nat, lat: real): seq<Row> {
    [ Row([Term(Col(i, L1), 1.0)], GE, front as real),
      Row([Term(Col(i, L2), 1.0)], GE, front as real),
      Row([Term(Col(i, L1), 1.0)], LE, back as real),
      Row([Term(Col(i, L2), 1.0)], LE, back as real),
      Row([Term(Col(i, L1), -1.0), Term(Col(i, L2), 1.0)], GE, 0.0),
      Row([Term(Col(i, MR1), 0.2 - 0.1), Term(Col(i, MR2), 10.0 - 0.2), Term(Col(i, LAT), -1.0)], EQ, -0.1),
      Row([Term(Col(i, LAT), 1.0)], LE, lat),
      Row([Term(Col(i, COST), -1.0), Term(Col(i, L1), (10.0 - 0.68) / 1024.0), Term(Col(i, L2), 0.68 / 1024.0)], EQ,
          0.0) ]
  }

  function TenantRows(i: nat, mrc: seq<Point>, lat: real): seq<Row>
    requires mrc != []
  {
    SegmentRows(i, mrc) + BoundRows(i, mrc[0].size, mrc[|mrc| - 1].size, lat)
  }

  function Model(mrcs: seq<seq<Point>>, lat: real): seq<Row>
    requires forall i :: 0 <= i < |mrcs| ==> mrcs[i] != []
  {
    if mrcs == [] then []
    else var n := |mrcs| - 1; Model(mrcs[..n], lat) + TenantRows(n, mrcs[n], lat)
  }

  // ---- building the program ----

  // The solver object as far as rows go, with the scratch arrays colno and row.
  class Lp {
    var rows: seq<Row>
    var objective: seq<Term>
    var colno: array<nat>
    var row: array<real>
    var k: nat

    ghost predicate Valid()
      reads this, colno, row
    {
      colno.Length == row.Length && 3 <= colno.Length && k <= colno.Length
    }

    // The terms written so far.
    ghost function Terms(): seq<Term>
      reads this, colno, row
      requires Valid()
    {
      seq(k, j requires 0 <= j < k reads this, colno, row requires Valid() => Term(colno[j], row[j]))
    }

    constructor (ncol: nat)
      requires ncol >= 3
      ensures Valid() && rows == [] && objective == [] && k == 0 && colno.Length == ncol && fresh(colno) && fresh(row)
    {
      rows, objective, k := [], [], 0;
      colno, row := new nat[ncol], new real[ncol];
    }

    // colno[k] = col; row[k++] = coef
    method Put(col: nat, coef: real)
      requires Valid() && k < colno.Length
      modifies this`k, colno, row
      ensures Valid() && Terms() == old(Terms()) + [Term(col, coef)] && k == old(k) + 1
    {
      colno[k] := col;
      row[k] := coef;
      k := k + 1;
      assert Terms()[..k - 1] == old(Terms());
    }

    // The first k entries of the scratch arrays, as the solver copies them.
    method Entries() returns (terms: seq<Term>)
      requires Valid()
      ensures terms == Terms()
    {
      terms := [];
      var j := 0;
      ghost var all := Terms();
      while j < k
        invariant j <= k && terms == all[..j]
      {
        terms := terms + [Term(colno[j], row[j])];
        j := j + 1;
      }
      assert terms == all;
    }

    // add_constraintex; the next row starts over
    method AddConstraint(rel: Rel, rhs: real)
      requires Valid()
      modifies this`rows, this`k
      ensures Valid() && k == 0 && rows == old(rows) + [Row(old(Terms()), rel, rhs)]
    {
      var terms := Entries();
      rows := rows + [Row(terms, rel, rhs)];
      k := 0;
    }

    // set_obj_fnex
    method SetObjective()
      requires Valid()
      modifies this`objective
      ensures Valid() && objective == old(Terms())
    {
      objective := Entries();
    }
  }

  // One row of one, two or three entries.
  method AddOne(lp: Lp, c: nat, a: real, rel: Rel, rhs: real)
    requires lp.Valid() && lp.k == 0
    modifies lp`rows, lp`k, lp.colno, lp.row
    ensures lp.Valid() && lp.k == 0 && lp.rows == old(lp.rows) + [Row([Term(c, a)], rel, rhs)]
  {
    lp.Put(c, a);
    assert lp.Terms() == [Term(c, a)];
    lp.AddConstraint(rel, rhs);
  }

  method AddTwo(lp: Lp, c: nat, a: real, d: nat, b: real, rel: Rel, rhs: real)
    requires lp.Valid() && lp.k == 0
    modifies lp`rows, lp`k, lp.colno, lp.row
    ensures lp.Valid() && lp.k == 0 && lp.rows == old(lp.rows) + [Row([Term(c, a), Term(d, b)], rel, rhs)]
  {
    lp.Put(c, a);
    lp.Put(d, b);
    assert lp.Terms() == [Term(c, a), Term(d, b)];
    lp.AddConstraint(rel, rhs);
  }

  method AddThree(lp: Lp, c: nat, a: real, d: nat, b: real, e: nat, f: real, rel: Rel, rhs: real)
    requires lp.Valid() && lp.k == 0
    modifies lp`rows, lp`k, lp.colno, lp.row
    ensures lp.Valid() && lp.k == 0 && lp.rows == old(lp.rows) + [Row([Term(c, a), Term(d, b), Term(e, f)], rel, rhs)]
  {
    lp.Put(c, a);
    lp.Put(d, b);
    lp.Put(e, f);
    assert lp.Terms() == [Term(c, a), Term(d, b), Term(e, f)];
    lp.AddConstraint(rel, rhs);
  }

  method AddSegment(lp: Lp, i: nat, size: nat, mr: nat, p: Point, q: Point)
    requires lp.Valid() && lp.k == 0
    modifies lp`rows, lp`k, lp.colno, lp.row
    ensures lp.Valid() && lp.k == 0 && lp.rows == old(lp.rows) + [SegmentRow(i, size, mr, p, q)]
  {
    hide Col;
    ghost var r := SegmentRow(i, size, mr, p, q);
    var c, d, a, b := Col(i, size), Col(i, mr), p.ratio - q.ratio, q.size as real - p.size as real;
    var e := p.ratio * q.size as real - p.size as real * q.ratio;
    assert r == Row([Term(c, a), Term(d, b)], GE, e);
    AddTwo(lp, c, a, d, b, GE, e);
  }

  // The rows of one tenant that follow its segments.
  method AddBounds(lp: Lp, i: nat, front: nat, back: nat, lat: real)
    requires lp.Valid() && lp.k == 0
    modifies lp`rows, lp`k, lp.colno, lp.row
    ensures lp.Valid() && lp.k == 0 && lp.rows == old(lp.rows) + BoundRows(i, front, back, lat)
  {
    hide Col;
    AddOne(lp, Col(i, L1), 1.0, GE, front as real);
    AddOne(lp, Col(i, L2), 1.0, GE, front as real);
    AddOne(lp, Col(i, L1), 1.0, LE, back as real);
    AddOne(lp, Col(i, L2), 1.0, LE, back as real);
    AddTwo(lp, Col(i, L1), -1.0, Col(i, L2), 1.0, GE, 0.0);
    // KVD latency - DRAM latency, backend latency - KVD latency
    AddThree(lp, Col(i, MR1), 0.2 - 0.1, Col(i, MR2), 10.0 - 0.2, Col(i, LAT), -1.0, EQ, -0.1);
    AddOne(lp, Col(i, LAT), 1.0, LE, lat);
    AddThree(lp, Col(i, COST), -1.0, Col(i, L1), (10.0 - 0.68) / 1024.0, Col(i, L2), 0.68 / 1024.0, EQ, 0.0);
  }

  method AddTenant(lp: Lp, i: nat, mrc: seq<Point>, lat: real)
    requires lp.Valid() && lp.k == 0 && mrc != []
    modifies lp`rows, lp`k, lp.colno, lp.row
    ensures lp.Valid() && lp.k == 0 && lp.rows == old(lp.rows) + TenantRows(i, mrc, lat)
  {
    hide SegmentRow, BoundRows;
    ghost var before := lp.rows;
    var j: nat := 0;
    while j < |mrc| - 1
      invariant j <= |mrc| - 1 && lp.Valid() && lp.k == 0
      invariant lp.rows == before + SegmentRows(i, mrc[..j + 1])
    {
      AddSegment(lp, i, L1, MR1, mrc[j], mrc[j + 1]);
      AddSegment(lp, i, L2, MR2, mrc[j], mrc[j + 1]);
      assert mrc[..j + 2][..j + 1] == mrc[..j + 1];
      j := j + 1;
    }
    assert mrc[..|mrc|] == mrc;
    AddBounds(lp, i, mrc[0].size, mrc[|mrc| - 1].size, lat);
  }

  // The cost columns of the first n tenants.
  function Costs(n: nat): (r: seq<Term>)
    ensures |r| == n
  {
    if n == 0 then [] else Costs(n - 1) + [Term(Col(n - 1, COST), 1.0)]
  }

  // gen_solve_lp up to the call of the solver
  method GenModel(mrcs: seq<seq<Point>>, lat: real) returns (lp: Lp)
    requires mrcs != [] && forall i :: 0 <= i < |mrcs| ==> mrcs[i] != []
    ensures lp.rows == Model(mrcs, lat) && lp.objective == Costs(|mrcs|)
  {
    hide TenantRows, Col;
    lp := new Lp(6 * |mrcs|);
    var i: nat := 0;
    while i < |mrcs|
      invariant i <= |mrcs| && lp.Valid() && lp.k == 0 && lp.colno.Length == 6 * |mrcs|
      invariant fresh(lp) && fresh(lp.colno) && fresh(lp.row) && lp.rows == Model(mrcs[..i], lat)
    {
      AddTenant(lp, i, mrcs[i], lat);
      assert mrcs[..i + 1][..i] == mrcs[..i];
      i := i + 1;
    }
    assert mrcs[..|mrcs|] == mrcs;
    i := 0;
    while i < |mrcs|
      invariant i <= |mrcs| && lp.Valid() && lp.k == i && lp.colno.Length == 6 * |mrcs|
      invariant fresh(lp) && fresh(lp.colno) && fresh(lp.row) && lp.rows == Model(mrcs, lat) && lp.Terms() == Costs(i)
    {
      lp.Put(Col(i, COST), 1.0);
      i := i + 1;
    }
    lp.SetObjective();
  }

  // ---- what a feasible point is ----

  function At(x: seq<real>, col: nat): real { if 1 <= col <= |x| then x[col - 1] else 0.0 }

  function Dot(terms: seq<Term>, x: seq<real>): real {
    if terms == [] then 0.0 else terms[0].coef * At(x, terms[0].col) + Dot(terms[1..], x)
  }

  predicate Holds(r: Row, x: seq<real>) {
    match r.rel
    case GE => Dot(r.terms, x) >= r.rhs
    case LE => Dot(r.terms, x) <= r.rhs
    case EQ => Dot(r.terms, x) == r.rhs
  }

  ghost predicate Feasible(rows: seq<Row>, x: seq<real>) { forall r :: r in rows ==> Holds(r, x) }

  // A curve as measured: at least two points, sizes growing, ratios not.
  ghost predicate Measured(mrc: seq<Point>) {
    && |mrc| >= 2
    && (forall j, k :: 0 <= j < k < |mrc| ==> mrc[j].size < mrc[k].size && mrc[j].ratio >= mrc[k].ratio)
  }

  // The line through two points, multiplied out: negative below it, positive above.
  function Above(p: Point, q: Point, s: real, y: real): real {
    (p.ratio - q.ratio) * s + (q.size as real - p.size as real) * y
      - (p.ratio * q.size as real - p.size as real * q.ratio)
  }

  lemma OneTerm(c: nat, a: real, x: seq<real>)
    ensures Dot([Term(c, a)], x) == a * At(x, c)
  {
    assert [Term(c, a)][1..] == [];
  }

  lemma TwoTerms(c: nat, a: real, d: nat, b: real, x: seq<real>)
    ensures Dot([Term(c, a), Term(d, b)], x) == a * At(x, c) + b * At(x, d)
  {
    assert [Term(c, a), Term(d, b)][1..] == [Term(d, b)];
    OneTerm(d, b, x);
  }

  lemma ThreeTerms(c: nat, a: real, d: nat, b: real, e: nat, f: real, x: seq<real>)
    ensures Dot([Term(c, a), Term(d, b), Term(e, f)], x) == a * At(x, c) + b * At(x, d) + f * At(x, e)
  {
    assert [Term(c, a), Term(d, b), Term(e, f)][1..] == [Term(d, b), Term(e, f)];
    TwoTerms(d, b, e, f, x);
  }

  // The variables of one tenant.
  datatype Tenant = Tenant(s1: real, s2: real, m1: real, m2: real, lat: real, cost: real)

  function TenantOf(x: seq<real>, i: nat): Tenant {
    Tenant(At(x, Col(i, L1)), At(x, Col(i, L2)), At(x, Col(i, MR1)), At(x, Col(i, MR2)), At(x, Col(i, LAT)), At(x,
        Col(i, COST)))
  }

  const DRAM_COST: real := (10.0 - 0.68) / 1024.0
  const KVD_COST: real := 0.68 / 1024.0

  // DRAM, key-value disk and backend latencies
  function Latency(m1: real, m2: real): real { 0.1 + (0.2 - 0.1) * m1 + (10.0 - 0.2) * m2 }

  function Cost(s1: real, s2: real): real { DRAM_COST * s1 + KVD_COST * s2 }

  ghost predicate TenantOk(mrc: seq<Point>, lat: real, t: Tenant)
    requires mrc != []
  {
    && (forall j :: 0 <= j < |mrc| - 1 ==>
          Above(mrc[j], mrc[j + 1], t.s1, t.m1) >= 0.0 && Above(mrc[j], mrc[j + 1], t.s2, t.m2) >= 0.0)
    && mrc[0].size as real <= t.s1 <= t.s2 <= mrc[|mrc| - 1].size as real
    && t.lat == Latency(t.m1, t.m2) && t.lat <= lat && t.cost == Cost(t.s1, t.s2)
  }

  lemma SegmentHolds(i: nat, size: nat, mr: nat, p: Point, q: Point, x: seq<real>)
    ensures Holds(SegmentRow(i, size, mr, p, q), x) <==> Above(p, q, At(x, Col(i, size)), At(x, Col(i, mr))) >= 0.0
  {
    TwoTerms(Col(i, size), p.ratio - q.ratio, Col(i, mr), q.size as real - p.size as real, x);
  }

  lemma FeasibleCat(a: seq<Row>, b: seq<Row>, x: seq<real>)
    ensures Feasible(a + b, x) <==> Feasible(a, x) && Feasible(b, x)
  {
    assert forall r :: r in a + b <==> r in a || r in b;
  }

  lemma FeasibleTwo(r: Row, q: Row, x: seq<real>)
    ensures Feasible([r, q], x) <==> Holds(r, x) && Holds(q, x)
  {
    assert [r, q][0] == r && [r, q][1] == q;
  }

  ghost predicate AboveAll(mrc: seq<Point>, s: real, y: real) {
    forall j :: 0 <= j < |mrc| - 1 ==> Above(mrc[j], mrc[j + 1], s, y) >= 0.0
  }

  lemma {:induction false} SegmentsHold(i: nat, mrc: seq<Point>, x: seq<real>)
    ensures Feasible(SegmentRows(i, mrc), x) <==>
      AboveAll(mrc, At(x, Col(i, L1)), At(x, Col(i, MR1))) && AboveAll(mrc, At(x, Col(i, L2)), At(x, Col(i, MR2)))
  {
    hide Holds, SegmentRow, Above, Col, At;
    if |mrc| >= 2 {
      var n := |mrc| - 1;
      var p, q := mrc[n - 1], mrc[n];
      SegmentsHold(i, mrc[..n], x);
      var r1, r2 := SegmentRow(i, L1, MR1, p, q), SegmentRow(i, L2, MR2, p, q);
      FeasibleCat(SegmentRows(i, mrc[..n]), [r1, r2], x);
      FeasibleTwo(r1, r2, x);
      SegmentHolds(i, L1, MR1, p, q, x);
      SegmentHolds(i, L2, MR2, p, q, x);
      AboveLast(mrc, At(x, Col(i, L1)), At(x, Col(i, MR1)));
      AboveLast(mrc, At(x, Col(i, L2)), At(x, Col(i, MR2)));
    }
  }

  lemma AboveLast(mrc: seq<Point>, s: real, y: real)
    requires |mrc| >= 2
    ensures AboveAll(mrc, s, y) <==>
      AboveAll(mrc[..|mrc| - 1], s, y) && Above(mrc[|mrc| - 2], mrc[|mrc| - 1], s, y) >= 0.0
  {
    hide Above;
    var t := mrc[..|mrc| - 1];
    forall j | 0 <= j < |t| - 1 ensures Above(t[j], t[j + 1], s, y) == Above(mrc[j], mrc[j + 1], s, y) {}
  }

  lemma BoundHolds(i: nat, which: nat, rel: Rel, rhs: real, x: seq<real>)
    ensures var v := At(x, Col(i, which));
      Holds(Row([Term(Col(i, which), 1.0)], rel, rhs), x) <==>
        if rel == GE then v >= rhs else if rel == LE then v <= rhs else v == rhs
  {
    OneTerm(Col(i, which), 1.0, x);
    hide Dot, At, Col;
  }

  lemma OrderHolds(i: nat, x: seq<real>)
    ensures Holds(Row([Term(Col(i, L1), -1.0), Term(Col(i, L2), 1.0)], GE, 0.0), x) <==>
      At(x, Col(i, L1)) <= At(x, Col(i, L2))
  {
    TwoTerms(Col(i, L1), -1.0, Col(i, L2), 1.0, x);
    hide Dot, At, Col;
  }

  lemma LatencyHolds(i: nat, x: seq<real>)
    ensures Holds(Row([Term(Col(i, MR1), 0.2 - 0.1), Term(Col(i, MR2), 10.0 - 0.2), Term(Col(i, LAT), -1.0)], EQ,
        -0.1), x)
            <==> At(x, Col(i, LAT)) == Latency(At(x, Col(i, MR1)), At(x, Col(i, MR2)))
  {
    ThreeTerms(Col(i, MR1), 0.2 - 0.1, Col(i, MR2), 10.0 - 0.2, Col(i, LAT), -1.0, x);
    hide Dot, At, Col;
  }

  lemma CostHolds(i: nat, x: seq<real>)
    ensures Holds(Row([Term(Col(i, COST), -1.0), Term(Col(i, L1), (10.0 - 0.68) / 1024.0), Term(Col(i, L2),
        0.68 / 1024.0)], EQ, 0.0), x)
            <==> At(x, Col(i, COST)) == Cost(At(x, Col(i, L1)), At(x, Col(i, L2)))
  {
    ThreeTerms(Col(i, COST), -1.0, Col(i, L1), (10.0 - 0.68) / 1024.0, Col(i, L2), 0.68 / 1024.0, x);
    hide Dot, At, Col;
  }

  lemma EightRows(rows: seq<Row>, x: seq<real>)
    requires |rows| == 8
    ensures Feasible(rows, x) <==>
      && Holds(rows[0], x) && Holds(rows[1], x) && Holds(rows[2], x) && Holds(rows[3], x)
      && Holds(rows[4], x) && Holds(rows[5], x) && Holds(rows[6], x) && Holds(rows[7], x)
  {
    hide Holds;
    if Feasible(rows, x) { forall j | 0 <= j < 8 ensures Holds(rows[j], x) { assert rows[j] in rows; } }
  }

  lemma BoundsHold(i: nat, front: nat, back: nat, lat: real, x: seq<real>)
    ensures var t := TenantOf(x, i);
      Feasible(BoundRows(i, front, back, lat), x) <==>
        && front as real <= t.s1 <= t.s2 <= back as real
        && t.lat == Latency(t.m1, t.m2) && t.lat <= lat && t.cost == Cost(t.s1, t.s2)
  {
    hide Dot, At, Col, Holds, Latency, Cost, Feasible;
    EightRows(BoundRows(i, front, back, lat), x);
    BoundHolds(i, L1, GE, front as real, x);
    BoundHolds(i, L2, GE, front as real, x);
    BoundHolds(i, L1, LE, back as real, x);
    BoundHolds(i, L2, LE, back as real, x);
    BoundHolds(i, LAT, LE, lat, x);
    OrderHolds(i, x);
    LatencyHolds(i, x);
    CostHolds(i, x);
  }

  ghost predicate TenantsOk(mrcs: seq<seq<Point>>, lat: real, x: seq<real>)
    requires forall i :: 0 <= i < |mrcs| ==> mrcs[i] != []
  {
    forall i :: 0 <= i < |mrcs| ==> TenantOk(mrcs[i], lat, TenantOf(x, i))
  }

  lemma TenantsLast(mrcs: seq<seq<Point>>, lat: real, x: seq<real>)
    requires mrcs != [] && forall i :: 0 <= i < |mrcs| ==> mrcs[i] != []
    ensures var n := |mrcs| - 1; TenantsOk(mrcs, lat, x) <==>
      TenantsOk(mrcs[..n], lat, x) && TenantOk(mrcs[n], lat, TenantOf(x, n))
  {
    hide TenantOk, TenantOf;
    var n := |mrcs| - 1;
    assert forall i :: 0 <= i < n ==> mrcs[..n][i] == mrcs[i];
  }

  // The rows of the program say exactly this of each tenant.
  lemma {:induction false} ModelMeans(mrcs: seq<seq<Point>>, lat: real, x: seq<real>)
    requires forall i :: 0 <= i < |mrcs| ==> mrcs[i] != []
    ensures Feasible(Model(mrcs, lat), x) <==> TenantsOk(mrcs, lat, x)
  {
    hide TenantOk, TenantOf, TenantsOk, Feasible, TenantRows;
    if mrcs == [] {
      NoTenants(lat, x);
    } else {
      var n := |mrcs| - 1;
      ModelMeans(mrcs[..n], lat, x);
      FeasibleCat(Model(mrcs[..n], lat), TenantRows(n, mrcs[n], lat), x);
      TenantMeans(n, mrcs[n], lat, x);
      TenantsLast(mrcs, lat, x);
    }
  }

  lemma NoTenants(lat: real, x: seq<real>)
    ensures Feasible([], x) && TenantsOk([], lat, x)
  {
  }

  lemma TenantMeans(i: nat, mrc: seq<Point>, lat: real, x: seq<real>)
    requires mrc != []
    ensures Feasible(TenantRows(i, mrc, lat), x) <==> TenantOk(mrc, lat, TenantOf(x, i))
  {
    hide Feasible, SegmentRows, BoundRows, Above, Latency, Cost, At, Col;
    FeasibleCat(SegmentRows(i, mrc), BoundRows(i, mrc[0].size, mrc[|mrc| - 1].size, lat), x);
    SegmentsHold(i, mrc, x);
    BoundsHold(i, mrc[0].size, mrc[|mrc| - 1].size, lat, x);
  }
}
