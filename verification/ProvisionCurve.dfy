// Miss-ratio curves: the line through two measured points, interpolation, and convexity.
module ProvisionCurve {
  import opened Provision

  // ---- one line ----

  ghost predicate Ordered(p: Point, q: Point) { p.size < q.size && p.ratio >= q.ratio }

  function Slope(p: Point, q: Point): real
    requires p.size < q.size
  {
    (p.ratio - q.ratio) / (q.size as real - p.size as real)
  }

  // The miss ratio between two measured points, interpolated.
  function Line(p: Point, q: Point, s: real): real
    requires p.size < q.size
  {
    p.ratio - Slope(p, q) * (s - p.size as real)
  }

  lemma Monotone(a: real, b: real, c: real)
    requires 0.0 <= a && b <= c
    ensures a * b <= a * c
  {
  }

  lemma SlopeTimes(p: Point, q: Point)
    requires p.size < q.size
    ensures Slope(p, q) * (q.size as real - p.size as real) == p.ratio - q.ratio
    ensures p.ratio >= q.ratio ==> Slope(p, q) >= 0.0
  {
  }

  lemma Expand(d: real, w: real, ps: real, qs: real, pr: real, qr: real, s: real, y: real)
    requires w == qs - ps && d * w == pr - qr
    ensures (pr - qr) * s + (qs - ps) * y - (pr * qs - ps * qr) == w * (y - (pr - d * (s - ps)))
  {
    calc {
      (pr - qr) * s + (qs - ps) * y - (pr * qs - ps * qr);
      (pr - qr) * (s - ps) + w * y - w * pr;
      d * w * (s - ps) + w * y - w * pr;
      w * (y - (pr - d * (s - ps)));
    }
  }

  // The multiplied-out row holds exactly on and above the line.
  lemma AboveIsAbove(p: Point, q: Point, s: real, y: real)
    requires p.size < q.size
    ensures Above(p, q, s, y) >= 0.0 <==> y >= Line(p, q, s)
  {
    SlopeTimes(p, q);
    var w := q.size as real - p.size as real;
    Expand(Slope(p, q), w, p.size as real, q.size as real, p.ratio, q.ratio, s, y);
    assert Above(p, q, s, y) == w * (y - Line(p, q, s));
    hide Above, Line, Slope;
    Signs(w, y - Line(p, q, s));
  }

  lemma Signs(w: real, z: real)
    requires w > 0.0
    ensures w * z >= 0.0 <==> z >= 0.0
  {
    if z < 0.0 { Negative(w, z); } else { Monotone(w, 0.0, z); }
  }

  lemma Negative(w: real, z: real)
    requires w > 0.0 && z < 0.0
    ensures w * z < 0.0
  {
  }

  lemma LineFalls(p: Point, q: Point, s: real, t: real)
    requires Ordered(p, q) && s <= t
    ensures Line(p, q, s) >= Line(p, q, t)
    ensures Line(p, q, p.size as real) == p.ratio && Line(p, q, q.size as real) == q.ratio
  {
    SlopeTimes(p, q);
    Monotone(Slope(p, q), s - p.size as real, t - p.size as real);
  }

  // ---- the curve ----

  ghost predicate Falling(mrc: seq<Point>) {
    |mrc| >= 2 && forall j :: 0 <= j < |mrc| - 1 ==> Ordered(mrc[j], mrc[j + 1])
  }

  lemma {:induction false} MeasuredFalls(mrc: seq<Point>)
    requires |mrc| >= 2
    ensures Measured(mrc) <==> Falling(mrc)
  {
    if Falling(mrc) {
      forall j, k | 0 <= j < k < |mrc|
        ensures mrc[j].size < mrc[k].size && mrc[j].ratio >= mrc[k].ratio
      {
        Apart(mrc, j, k);
      }
    }
  }

  lemma {:induction false} Apart(mrc: seq<Point>, j: nat, k: nat)
    requires Falling(mrc) && j < k < |mrc|
    ensures Ordered(mrc[j], mrc[k])
  {
    assert Ordered(mrc[k - 1], mrc[k - 1 + 1]);
    if j < k - 1 { Apart(mrc, j, k - 1); }
  }

  lemma TailFalls(mrc: seq<Point>)
    requires Falling(mrc) && |mrc| > 2
    ensures Falling(mrc[1..]) && Ordered(mrc[0], mrc[1])
  {
    assert Ordered(mrc[0], mrc[0 + 1]);
    forall j | 0 <= j < |mrc[1..]| - 1 ensures Ordered(mrc[1..][j], mrc[1..][j + 1]) {
      assert Ordered(mrc[j + 1], mrc[j + 1 + 1]);
    }
  }

  // The interpolated miss ratio of a size.
  ghost function Interp(mrc: seq<Point>, s: real): real
    requires Falling(mrc)
  {
    assert Ordered(mrc[0], mrc[0 + 1]);
    if |mrc| == 2 || s <= mrc[1].size as real then Line(mrc[0], mrc[1], s) else TailFalls(mrc); Interp(mrc[1..], s)
  }

  ghost predicate InRange(mrc: seq<Point>, s: real)
    requires mrc != []
  {
    mrc[0].size as real <= s <= mrc[|mrc| - 1].size as real
  }

  lemma {:induction false} InterpBounds(mrc: seq<Point>, s: real)
    requires Falling(mrc) && InRange(mrc, s)
    ensures mrc[|mrc| - 1].ratio <= Interp(mrc, s) <= mrc[0].ratio
  {
    assert Ordered(mrc[0], mrc[0 + 1]);
    LineFalls(mrc[0], mrc[1], mrc[0].size as real, s);
    if |mrc| == 2 {
      LineFalls(mrc[0], mrc[1], s, mrc[1].size as real);
    } else if s <= mrc[1].size as real {
      LineFalls(mrc[0], mrc[1], s, mrc[1].size as real);
      Apart(mrc, 1, |mrc| - 1);
    } else {
      TailFalls(mrc);
      InterpBounds(mrc[1..], s);
    }
  }

  lemma {:induction false} InterpFalls(mrc: seq<Point>, s: real, t: real)
    requires Falling(mrc) && InRange(mrc, s) && InRange(mrc, t) && s <= t
    ensures Interp(mrc, s) >= Interp(mrc, t)
  {
    assert Ordered(mrc[0], mrc[0 + 1]);
    if |mrc| == 2 || t <= mrc[1].size as real {
      LineFalls(mrc[0], mrc[1], s, t);
    } else {
      TailFalls(mrc);
      if s <= mrc[1].size as real {
        LineFalls(mrc[0], mrc[1], s, mrc[1].size as real);
        InterpBounds(mrc[1..], t);
      } else {
        InterpFalls(mrc[1..], s, t);
      }
    }
  }

  lemma {:induction false} InterpHits(mrc: seq<Point>, j: nat)
    requires Falling(mrc) && j < |mrc|
    ensures Interp(mrc, mrc[j].size as real) == mrc[j].ratio
  {
    assert Ordered(mrc[0], mrc[0 + 1]);
    LineFalls(mrc[0], mrc[1], 0.0, 0.0);
    if j >= 2 {
      TailFalls(mrc);
      Apart(mrc, 1, j);
      InterpHits(mrc[1..], j - 1);
    }
  }

  lemma AboveTail(mrc: seq<Point>, s: real, y: real)
    requires |mrc| >= 2
    ensures AboveAll(mrc, s, y) <==> Above(mrc[0], mrc[1], s, y) >= 0.0 && AboveAll(mrc[1..], s, y)
  {
    hide Above;
    var t := mrc[1..];
    forall j | 0 <= j < |t| - 1 ensures Above(t[j], t[j + 1], s, y) == Above(mrc[j + 1], mrc[j + 1 + 1], s, y) {}
    if Above(mrc[0], mrc[1], s, y) >= 0.0 && AboveAll(t, s, y) {
      forall j | 0 <= j < |mrc| - 1 ensures Above(mrc[j], mrc[j + 1], s, y) >= 0.0 {
        if j > 0 { assert Above(t[j - 1], t[j - 1 + 1], s, y) >= 0.0; }
      }
    }
    if AboveAll(mrc, s, y) { assert Above(mrc[0], mrc[0 + 1], s, y) >= 0.0; }
  }

  // Above every line means above the curve, whatever its shape.
  lemma {:induction false} AboveTheCurve(mrc: seq<Point>, s: real, y: real)
    requires Falling(mrc) && AboveAll(mrc, s, y)
    ensures y >= Interp(mrc, s)
  {
    assert Ordered(mrc[0], mrc[0 + 1]);
    AboveTail(mrc, s, y);
    AboveIsAbove(mrc[0], mrc[1], s, y);
    if |mrc| > 2 && s > mrc[1].size as real {
      TailFalls(mrc);
      AboveTheCurve(mrc[1..], s, y);
    }
  }

  // ---- convex curves ----

  ghost predicate Flatter(p: Point, q: Point, r: Point)
    requires p.size < q.size < r.size
  {
    Slope(p, q) >= Slope(q, r)
  }

  ghost predicate FlatterAt(mrc: seq<Point>, j: nat)
    requires Falling(mrc) && j < |mrc| - 2
  {
    assert Ordered(mrc[j], mrc[j + 1]) && Ordered(mrc[j + 1], mrc[j + 1 + 1]);
    Flatter(mrc[j], mrc[j + 1], mrc[j + 2])
  }

  // Each segment is no steeper than the one before.
  ghost predicate Convex(mrc: seq<Point>)
    requires Falling(mrc)
  {
    forall j: nat :: j < |mrc| - 2 ==> FlatterAt(mrc, j)
  }

  lemma TailConvex(mrc: seq<Point>)
    requires Falling(mrc) && Convex(mrc) && |mrc| > 2
    ensures Falling(mrc[1..]) && Convex(mrc[1..]) && Ordered(mrc[0], mrc[1]) && Ordered(mrc[1], mrc[2])
        && Flatter(mrc[0], mrc[1], mrc[2])
  {
    TailFalls(mrc);
    assert Ordered(mrc[1], mrc[1 + 1]) && FlatterAt(mrc, 0);
    hide Ordered, Flatter;
    forall j: nat | j < |mrc[1..]| - 2 ensures FlatterAt(mrc[1..], j) {
      assert FlatterAt(mrc, j + 1);
    }
  }

  // Two neighbouring lines cross at their common point.
  lemma Cross(p: Point, q: Point, r: Point, s: real)
    requires Ordered(p, q) && Ordered(q, r)
    ensures Flatter(p, q, r) && s <= q.size as real ==> Line(q, r, s) <= Line(p, q, s)
    ensures Flatter(p, q, r) && s >= q.size as real ==> Line(p, q, s) <= Line(q, r, s)
    ensures !Flatter(p, q, r) && s < q.size as real ==> Line(q, r, s) > Line(p, q, s)
  {
    SlopeTimes(p, q);
    var d, e, z := Slope(p, q), Slope(q, r), s - q.size as real;
    Shift(d, s, p.size as real, q.size as real);
    assert Line(p, q, s) == q.ratio - d * z;
    assert Line(q, r, s) == q.ratio - e * z;
    Products(d, e, z);
  }

  lemma Shift(d: real, s: real, a: real, b: real)
    ensures d * (s - a) == d * (b - a) + d * (s - b)
  {
  }

  lemma Products(d: real, e: real, z: real)
    ensures d >= e && z <= 0.0 ==> d * z <= e * z
    ensures d >= e && z >= 0.0 ==> d * z >= e * z
    ensures d < e && z < 0.0 ==> d * z > e * z
  {
    assert (d - e) * z == d * z - e * z;
    if d < e && z < 0.0 { Negative(e - d, z); }
    if d >= e { if z <= 0.0 { Monotone(d - e, z, 0.0); } else { Monotone(d - e, 0.0, z); } }
  }

  // To the left of its first bend, a convex curve's first line is the highest.
  lemma {:induction false} FirstIsHighest(mrc: seq<Point>, s: real, y: real)
    requires Falling(mrc) && Convex(mrc) && s <= mrc[1].size as real && Ordered(mrc[0], mrc[1])
        && y >= Line(mrc[0], mrc[1], s)
    ensures AboveAll(mrc, s, y)
  {
    AboveIsAbove(mrc[0], mrc[1], s, y);
    AboveTail(mrc, s, y);
    if |mrc| > 2 {
      TailConvex(mrc);
      Cross(mrc[0], mrc[1], mrc[2], s);
      FirstIsHighest(mrc[1..], s, y);
    }
  }

  lemma {:induction false} ConvexTouches(mrc: seq<Point>, s: real)
    requires Falling(mrc) && Convex(mrc) && InRange(mrc, s)
    ensures AboveAll(mrc, s, Interp(mrc, s))
  {
    hide Convex;
    assert Ordered(mrc[0], mrc[0 + 1]);
    var y := Interp(mrc, s);
    if |mrc| == 2 || s <= mrc[1].size as real {
      FirstIsHighest(mrc, s, y);
    } else {
      TailConvex(mrc);
      ConvexTouches(mrc[1..], s);
      AboveTail(mrc[1..], s, y);
      AboveIsAbove(mrc[1], mrc[2], s, y);
      Cross(mrc[0], mrc[1], mrc[2], s);
      AboveIsAbove(mrc[0], mrc[1], s, y);
      AboveTail(mrc, s, y);
    }
  }

  // Above a bend of the wrong kind, the row of the next segment asks for more than the curve gives.
  lemma BendAsksMore(mrc: seq<Point>, j: nat, y: real)
    requires Falling(mrc) && j < |mrc| - 2 && !FlatterAt(mrc, j) && AboveAll(mrc, mrc[j].size as real, y)
    ensures y > mrc[j].ratio
  {
    var s := mrc[j].size as real;
    assert Ordered(mrc[j], mrc[j + 1]) && Ordered(mrc[j + 1], mrc[j + 1 + 1]);
    Cross(mrc[j], mrc[j + 1], mrc[j + 2], s);
    LineFalls(mrc[j], mrc[j + 1], s, s);
    assert Above(mrc[j + 1], mrc[j + 1 + 1], s, y) >= 0.0;
    AboveIsAbove(mrc[j + 1], mrc[j + 2], s, y);
  }
}
