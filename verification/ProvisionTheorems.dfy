// The program's answers against the true latencies: soundness, rounding, and exactly when nothing is lost.
module ProvisionTheorems {
  import opened Provision
  import opened ProvisionCurve

  // The two sizes are measured, ordered, and the interpolated miss ratios give a latency within the bound.
  ghost predicate Meets(mrc: seq<Point>, lat: real, s1: real, s2: real)
    requires Falling(mrc)
  {
    InRange(mrc, s1) && InRange(mrc, s2) && s1 <= s2 && Latency(Interp(mrc, s1), Interp(mrc, s2)) <= lat
  }

  // Some values of the other four variables satisfy all rows of the tenant.
  ghost predicate Extends(mrc: seq<Point>, lat: real, s1: real, s2: real)
    requires mrc != []
  {
    exists t: Tenant :: t.s1 == s1 && t.s2 == s2 && TenantOk(mrc, lat, t)
  }

  lemma TenantParts(mrc: seq<Point>, lat: real, t: Tenant)
    requires |mrc| >= 2
    ensures TenantOk(mrc, lat, t) <==>
      && AboveAll(mrc, t.s1, t.m1) && AboveAll(mrc, t.s2, t.m2) && InRange(mrc, t.s1) && InRange(mrc, t.s2)
          && t.s1 <= t.s2
      && t.lat == Latency(t.m1, t.m2) && t.lat <= lat && t.cost == Cost(t.s1, t.s2)
  {
    hide Above, Latency, Cost;
    if AboveAll(mrc, t.s1, t.m1) && AboveAll(mrc, t.s2, t.m2) {
      forall j | 0 <= j < |mrc| - 1
        ensures Above(mrc[j], mrc[j + 1], t.s1, t.m1) >= 0.0 && Above(mrc[j], mrc[j + 1], t.s2, t.m2) >= 0.0
      {
      }
    }
  }

  lemma TenantMeets(mrc: seq<Point>, lat: real, t: Tenant)
    requires Falling(mrc) && TenantOk(mrc, lat, t)
    ensures Meets(mrc, lat, t.s1, t.s2) && t.m1 >= Interp(mrc, t.s1) && t.m2 >= Interp(mrc, t.s2)
  {
    hide TenantOk, Interp, AboveAll, InRange, Cost;
    TenantParts(mrc, lat, t);
    AboveTheCurve(mrc, t.s1, t.m1);
    AboveTheCurve(mrc, t.s2, t.m2);
  }

  ghost predicate AllFall(mrcs: seq<seq<Point>>) { forall i :: 0 <= i < |mrcs| ==> Falling(mrcs[i]) }

  lemma AllNonEmpty(mrcs: seq<seq<Point>>)
    requires AllFall(mrcs)
    ensures forall i :: 0 <= i < |mrcs| ==> |mrcs[i]| >= 2
  {
    forall i | 0 <= i < |mrcs| ensures |mrcs[i]| >= 2 { assert Falling(mrcs[i]); }
  }

  // Whatever feasible point the solver returns, every tenant's sizes truly meet the bound.
  lemma FeasibleMeets(mrcs: seq<seq<Point>>, lat: real, x: seq<real>, i: nat)
    requires i < |mrcs| && (forall k :: 0 <= k < |mrcs| ==> mrcs[k] != [] && Measured(mrcs[k]))
        && Feasible(Model(mrcs, lat), x)
    ensures Falling(mrcs[i]) && Meets(mrcs[i], lat, TenantOf(x, i).s1, TenantOf(x, i).s2)
  {
    hide Meets, TenantOk, TenantOf, Feasible, Model, Falling;
    ModelMeans(mrcs, lat, x);
    MeasuredFalls(mrcs[i]);
    TenantMeets(mrcs[i], lat, TenantOf(x, i));
  }

  // ---- rounding ----

  function Ceil(s: real): (n: int)
    ensures n as real - 1.0 < s <= n as real
  {
    -((-s).Floor)
  }

  lemma CeilMonotone(s: real, t: real)
    requires s <= t
    ensures Ceil(s) <= Ceil(t) && (s == s.Floor as real ==> Ceil(s) == s.Floor)
  {
  }

  lemma CeilInRange(mrc: seq<Point>, s: real)
    requires mrc != [] && InRange(mrc, s)
    ensures InRange(mrc, Ceil(s) as real) && 0 <= Ceil(s) <= mrc[|mrc| - 1].size
  {
    CeilMonotone(mrc[0].size as real, s);
    CeilMonotone(s, mrc[|mrc| - 1].size as real);
  }

  lemma CostGap(s1: real, s2: real)
    ensures 0.0 <= Cost(Ceil(s1) as real, Ceil(s2) as real) - Cost(s1, s2) < 10.0 / 1024.0
  {
    var a, b := Ceil(s1) as real - s1, Ceil(s2) as real - s2;
    assert Cost(Ceil(s1) as real, Ceil(s2) as real) - Cost(s1, s2) == DRAM_COST * a + KVD_COST * b;
  }

  lemma RoundingKeepsBound(mrc: seq<Point>, lat: real, s1: real, s2: real)
    requires Falling(mrc) && Meets(mrc, lat, s1, s2)
    ensures Meets(mrc, lat, Ceil(s1) as real, Ceil(s2) as real)
    ensures 0 <= Ceil(s1) <= Ceil(s2) <= mrc[|mrc| - 1].size
    ensures 0.0 <= Cost(Ceil(s1) as real, Ceil(s2) as real) - Cost(s1, s2) < 10.0 / 1024.0
  {
    hide Cost, Interp;
    CeilInRange(mrc, s1);
    CeilInRange(mrc, s2);
    CeilMonotone(s1, s2);
    InterpFalls(mrc, s1, Ceil(s1) as real);
    InterpFalls(mrc, s2, Ceil(s2) as real);
    CostGap(s1, s2);
  }

  // The end of gen_solve_lp, given the solver's values: the sizes reported for tenant 0.
  method Answer(mrcs: seq<seq<Point>>, lat: real, x: seq<real>) returns (l1: nat, l2: nat)
    requires mrcs != [] && |x| == 6 * |mrcs| && (forall k :: 0 <= k < |mrcs| ==> mrcs[k] != [] && Measured(mrcs[k]))
        && Feasible(Model(mrcs, lat), x)
    ensures l1 <= l2 <= mrcs[0][|mrcs[0]| - 1].size && Falling(mrcs[0]) && Meets(mrcs[0], lat, l1 as real, l2 as real)
    ensures 0.0 <= Cost(l1 as real, l2 as real) - Cost(x[0], x[1]) < 10.0 / 1024.0
  {
    hide Meets, Feasible, Model, Falling, Cost;
    FeasibleMeets(mrcs, lat, x, 0);
    RoundingKeepsBound(mrcs[0], lat, x[0], x[1]);
    l1 := Ceil(x[0]);
    l2 := Ceil(x[1]);
  }

  // ---- when nothing is lost ----

  function Filled(s1: real, s2: real, m1: real, m2: real): Tenant {
    Tenant(s1, s2, m1, m2, Latency(m1, m2), Cost(s1, s2))
  }

  lemma ConvexExtends(mrc: seq<Point>, lat: real, s1: real, s2: real)
    requires Falling(mrc) && Convex(mrc) && Meets(mrc, lat, s1, s2)
    ensures TenantOk(mrc, lat, Filled(s1, s2, Interp(mrc, s1), Interp(mrc, s2)))
  {
    hide TenantOk, Interp, AboveAll, InRange, Cost, Convex;
    TenantParts(mrc, lat, Filled(s1, s2, Interp(mrc, s1), Interp(mrc, s2)));
    ConvexTouches(mrc, s1);
    ConvexTouches(mrc, s2);
  }

  lemma MeetsTight(mrc: seq<Point>, j: nat, lat: real)
    requires Falling(mrc) && j < |mrc| && lat == Latency(mrc[j].ratio, mrc[j].ratio)
    ensures Meets(mrc, lat, mrc[j].size as real, mrc[j].size as real)
  {
    InterpHits(mrc, j);
    if j > 0 { Apart(mrc, 0, j); }
    if j < |mrc| - 1 { Apart(mrc, j, |mrc| - 1); }
  }

  lemma BendRefuses(mrc: seq<Point>, j: nat, lat: real)
    requires Falling(mrc) && j < |mrc| - 2 && !FlatterAt(mrc, j) && lat == Latency(mrc[j].ratio, mrc[j].ratio)
    ensures Meets(mrc, lat, mrc[j].size as real, mrc[j].size as real)
        && !Extends(mrc, lat, mrc[j].size as real, mrc[j].size as real)
  {
    MeetsTight(mrc, j, lat);
    hide Meets, TenantOk, AboveAll, FlatterAt;
    var s := mrc[j].size as real;
    if Extends(mrc, lat, s, s) {
      var t: Tenant :| t.s1 == s && t.s2 == s && TenantOk(mrc, lat, t);
      TenantParts(mrc, lat, t);
      BendAsksMore(mrc, j, t.m1);
      BendAsksMore(mrc, j, t.m2);
    }
  }

  // A tenant's rows admit every size pair that meets a bound, for all bounds, exactly when its curve is convex.
  lemma NothingLostIffConvex(mrc: seq<Point>)
    requires Falling(mrc)
    ensures (forall lat, s1, s2 :: Meets(mrc, lat, s1, s2) ==> Extends(mrc, lat, s1, s2)) <==> Convex(mrc)
  {
    hide Meets, TenantOk, FlatterAt;
    if Convex(mrc) {
      forall lat, s1, s2 | Meets(mrc, lat, s1, s2)
        ensures Extends(mrc, lat, s1, s2)
      {
        ConvexExtends(mrc, lat, s1, s2);
      }
    } else {
      var j: nat :| j < |mrc| - 2 && !FlatterAt(mrc, j);
      BendRefuses(mrc, j, Latency(mrc[j].ratio, mrc[j].ratio));
    }
  }

  // For instance: the curve falls slowly, then fast, and its first point is refused although it meets the bound.
  lemma BentCurveRefused()
    ensures var mrc := [Point(1, 1.0), Point(2, 0.9), Point(3, 0.0)];
      Falling(mrc) && Meets(mrc, 10.0, 1.0, 1.0) && !Extends(mrc, 10.0, 1.0, 1.0)
  {
    var mrc := [Point(1, 1.0), Point(2, 0.9), Point(3, 0.0)];
    forall j | 0 <= j < 2 ensures Ordered(mrc[j], mrc[j + 1]) { if j == 0 {} else {} }
    BendRefuses(mrc, 0, 10.0);
  }

  // ---- the whole program ----

  function Unpack(ts: seq<Tenant>): (x: seq<real>)
    ensures |x| == 6 * |ts|
  {
    if ts == [] then []
    else
      var t := ts[|ts| - 1];
      Unpack(ts[..|ts| - 1]) + [t.s1, t.s2, t.m1, t.m2, t.lat, t.cost]
  }

  lemma {:induction false} UnpackHolds(ts: seq<Tenant>, i: nat)
    requires i < |ts|
    ensures TenantOf(Unpack(ts), i) == ts[i]
  {
    var n := |ts| - 1;
    var t, x := ts[n], Unpack(ts);
    var y := Unpack(ts[..n]);
    assert x == y + [t.s1, t.s2, t.m1, t.m2, t.lat, t.cost];
    if i < n {
      UnpackHolds(ts[..n], i);
      forall c | 1 <= c <= 6 ensures At(x, Col(i, c)) == At(y, Col(i, c)) {}
    }
  }

  // What the solver minimizes.
  function Objective(n: nat, x: seq<real>): real { Dot(Costs(n), x) }

  function TotalCost(n: nat, x: seq<real>): real {
    if n == 0 then 0.0 else TotalCost(n - 1, x) + TenantOf(x, n - 1).cost
  }

  lemma {:induction false} DotCat(a: seq<Term>, b: seq<Term>, x: seq<real>)
    ensures Dot(a + b, x) == Dot(a, x) + Dot(b, x)
  {
    if a == [] {
      assert a + b == b;
    } else {
      assert (a + b)[1..] == a[1..] + b;
      DotCat(a[1..], b, x);
    }
  }

  lemma {:induction false} ObjectiveIsCost(n: nat, x: seq<real>)
    ensures Objective(n, x) == TotalCost(n, x)
  {
    if n > 0 {
      ObjectiveIsCost(n - 1, x);
      DotCat(Costs(n - 1), [Term(Col(n - 1, COST), 1.0)], x);
      OneTerm(Col(n - 1, COST), 1.0, x);
    }
  }

  // A pair of sizes for each tenant.
  type Plan = seq<(real, real)>

  ghost predicate PlanMeets(mrcs: seq<seq<Point>>, lat: real, plan: Plan)
    requires AllFall(mrcs)
  {
    |plan| == |mrcs| && forall i :: 0 <= i < |plan| ==> Meets(mrcs[i], lat, plan[i].0, plan[i].1)
  }

  function PlanCost(plan: Plan): real {
    if plan == [] then 0.0 else PlanCost(plan[..|plan| - 1]) + Cost(plan[|plan| - 1].0, plan[|plan| - 1].1)
  }

  ghost function Fill(mrcs: seq<seq<Point>>, plan: Plan): seq<Tenant>
    requires AllFall(mrcs) && |plan| == |mrcs|
  {
    seq(|plan|, i requires 0 <= i < |plan| =>
      Filled(plan[i].0, plan[i].1, Interp(mrcs[i], plan[i].0), Interp(mrcs[i], plan[i].1)))
  }

  lemma {:induction false} CostOf(plan: Plan, x: seq<real>)
    requires forall i: nat :: i < |plan| ==> TenantOf(x, i).cost == Cost(plan[i].0, plan[i].1)
    ensures TotalCost(|plan|, x) == PlanCost(plan)
  {
    hide TenantOf, Cost;
    if plan != [] {
      var n := |plan| - 1;
      forall i: nat | i < n ensures TenantOf(x, i).cost == Cost(plan[..n][i].0, plan[..n][i].1) {}
      CostOf(plan[..n], x);
    }
  }

  ghost predicate AllConvex(mrcs: seq<seq<Point>>)
    requires AllFall(mrcs)
  {
    forall i :: 0 <= i < |mrcs| ==> Convex(mrcs[i])
  }

  // The solver's own bound on every variable.
  ghost predicate NonNegative(x: seq<real>) { forall v :: v in x ==> v >= 0.0 }

  ghost predicate Ratios(mrcs: seq<seq<Point>>) {
    forall i, j :: 0 <= i < |mrcs| && 0 <= j < |mrcs[i]| ==> mrcs[i][j].ratio >= 0.0
  }

  lemma {:induction false} UnpackNonNegative(ts: seq<Tenant>)
    requires forall i :: 0 <= i < |ts| ==>
      var t := ts[i]; t.s1 >= 0.0 && t.s2 >= 0.0 && t.m1 >= 0.0 && t.m2 >= 0.0 && t.lat >= 0.0 && t.cost >= 0.0
    ensures NonNegative(Unpack(ts))
  {
    if ts != [] { UnpackNonNegative(ts[..|ts| - 1]); }
  }

  lemma FilledNonNegative(mrc: seq<Point>, lat: real, s1: real, s2: real)
    requires Falling(mrc) && Meets(mrc, lat, s1, s2) && mrc[|mrc| - 1].ratio >= 0.0
    ensures var t := Filled(s1, s2, Interp(mrc, s1), Interp(mrc, s2));
      t.s1 >= 0.0 && t.s2 >= 0.0 && t.m1 >= 0.0 && t.m2 >= 0.0 && t.lat >= 0.0 && t.cost >= 0.0
  {
    hide Interp;
    InterpBounds(mrc, s1);
    InterpBounds(mrc, s2);
  }

  // On convex curves every plan within the bound is a feasible point of the same cost.
  lemma PlanIsFeasible(mrcs: seq<seq<Point>>, lat: real, plan: Plan)
    requires AllFall(mrcs) && AllConvex(mrcs) && Ratios(mrcs) && PlanMeets(mrcs, lat, plan)
    ensures var x := Unpack(Fill(mrcs, plan));
      && Feasible(Model(mrcs, lat), x) && NonNegative(x) && Objective(|mrcs|, x) == PlanCost(plan)
      && forall i: nat :: i < |plan| ==> TenantOf(x, i).s1 == plan[i].0 && TenantOf(x, i).s2 == plan[i].1
  {
    hide Feasible, Model, TenantOk, TenantOf, Cost, Interp, Latency, Meets, Convex, Unpack, Falling;
    AllNonEmpty(mrcs);
    var ts := Fill(mrcs, plan);
    var x := Unpack(ts);
    forall i: nat | i < |plan|
      ensures TenantOf(x, i) == ts[i] && TenantOk(mrcs[i], lat, TenantOf(x, i))
      ensures var t := ts[i]; t.s1 >= 0.0 && t.s2 >= 0.0 && t.m1 >= 0.0 && t.m2 >= 0.0 && t.lat >= 0.0 && t.cost >= 0.0
    {
      UnpackHolds(ts, i);
      ConvexExtends(mrcs[i], lat, plan[i].0, plan[i].1);
      FilledNonNegative(mrcs[i], lat, plan[i].0, plan[i].1);
    }
    ModelMeans(mrcs, lat, x);
    UnpackNonNegative(ts);
    ObjectiveIsCost(|mrcs|, x);
    CostOf(plan, x);
  }

  // What the solver promises.
  ghost predicate Optimal(mrcs: seq<seq<Point>>, lat: real, x: seq<real>)
    requires forall i :: 0 <= i < |mrcs| ==> mrcs[i] != []
  {
    && Feasible(Model(mrcs, lat), x) && NonNegative(x) && |x| == 6 * |mrcs|
    && forall y :: |y| == 6 * |mrcs| && Feasible(Model(mrcs, lat), y) && NonNegative(y) ==>
      Objective(|mrcs|, x) <= Objective(|mrcs|, y)
  }

  function PlanOf(n: nat, x: seq<real>): (plan: Plan)
    ensures |plan| == n
  {
    seq(n, i requires 0 <= i < n => (TenantOf(x, i).s1, TenantOf(x, i).s2))
  }

  // On convex curves an optimal point is a cheapest plan among all that meet the bound.
  lemma OptimalIsCheapest(mrcs: seq<seq<Point>>, lat: real, x: seq<real>, other: Plan)
    requires AllFall(mrcs) && AllConvex(mrcs) && Ratios(mrcs) && Optimal(mrcs, lat, x) && PlanMeets(mrcs, lat, other)
    ensures PlanMeets(mrcs, lat, PlanOf(|mrcs|, x))
    ensures PlanCost(PlanOf(|mrcs|, x)) <= PlanCost(other)
  {
    hide Feasible, Model, TenantOk, TenantOf, Cost, Meets, Convex, Falling, Unpack, Objective;
    AllNonEmpty(mrcs);
    PlanIsFeasible(mrcs, lat, other);
    var plan := PlanOf(|mrcs|, x);
    ModelMeans(mrcs, lat, x);
    forall i: nat | i < |plan|
      ensures Meets(mrcs[i], lat, plan[i].0, plan[i].1) && TenantOf(x, i).cost == Cost(plan[i].0, plan[i].1)
    {
      TenantMeets(mrcs[i], lat, TenantOf(x, i));
      TenantCost(mrcs[i], lat, TenantOf(x, i));
    }
    CostOf(plan, x);
    ObjectiveIsCost(|mrcs|, x);
  }

  lemma TenantCost(mrc: seq<Point>, lat: real, t: Tenant)
    requires mrc != [] && TenantOk(mrc, lat, t)
    ensures t.cost == Cost(t.s1, t.s2)
  {
    hide Above, Latency;
  }
}
