// Decimal values: printing, safe_strtoull, and the bytes incr and decr leave in an item.
module Decimal {

  const WORD64: nat := 0x1_0000_0000_0000_0000
  const SIGN64: nat := 0x8000_0000_0000_0000
  const CRLF := "\r\n"

  // ---- numbers and digits ----

  predicate IsDigit(ch: char) { '0' <= ch <= '9' }

  predicate IsSpace(ch: char) { ch == ' ' || '\t' <= ch <= '\r' }

  function DigitOf(ch: char): nat
    requires IsDigit(ch)
  {
    ch as int - '0' as int
  }

  // snprintf("%llu")
  function Print(n: nat): (s: string)
    ensures s != [] && forall i :: 0 <= i < |s| ==> IsDigit(s[i])
  {
    var last := ('0' as int + n % 10) as char;
    if n < 10 then [last] else Print(n / 10) + [last]
  }

  // How many leading characters are digits.
  function Run(s: string): (n: nat)
    ensures n <= |s| && forall i :: 0 <= i < n ==> IsDigit(s[i])
    ensures n < |s| ==> !IsDigit(s[n])
  {
    if s == [] || !IsDigit(s[0]) then 0 else 1 + Run(s[1..])
  }

  function Value(s: string): nat
    requires forall i :: 0 <= i < |s| ==> IsDigit(s[i])
  {
    if s == [] then 0 else 10 * Value(s[..|s| - 1]) + DigitOf(s[|s| - 1])
  }

  function SkipSpaces(s: string): (n: nat)
    ensures n <= |s| && (n < |s| ==> !IsSpace(s[n]))
  {
    if s == [] || !IsSpace(s[0]) then 0 else 1 + SkipSpaces(s[1..])
  }

  // strtoull(s, &end, 10): the value, the position of end, and errno == ERANGE. Without digits end is the start.
  datatype Scan = Scan(value: nat, end: nat, range: bool)

  function Strtoull(s: string): (r: Scan)
    ensures r.end <= |s|
  {
    var i := SkipSpaces(s);
    var signed := i < |s| && (s[i] == '-' || s[i] == '+');
    var j := if signed then i + 1 else i;
    var n := Run(s[j..]);
    if n == 0 then Scan(0, 0, false)
    else
      var v := Value(s[j..j + n]);
      if v >= WORD64 then Scan(WORD64 - 1, j + n, true)
      else Scan(if signed && s[i] == '-' && v > 0 then WORD64 - v else v, j + n, false)
  }

  datatype Option<+T> = None | Some(value: T)

  // safe_strtoull on bytes that are not NUL-terminated: `beyond` is what lies in memory behind them, up to the next
  // NUL byte. The scan stops in s itself when s ends with a line end; the search for a minus sign does not.
  function SafeStrtoull(s: string, beyond: string): Option<nat> {
    var r := Strtoull(s + beyond);
    if r.range || r.end == 0 then None
    else if r.end < |s + beyond| && !IsSpace((s + beyond)[r.end]) then None
    else if r.value >= SIGN64 && '-' in s + beyond then None
    else Some(r.value)
  }

  // ---- what is printed is what is parsed ----

  lemma {:induction false} PrintValue(n: nat)
    ensures Value(Print(n)) == n
  {
    if n >= 10 {
      PrintValue(n / 10);
      assert Print(n)[..|Print(n)| - 1] == Print(n / 10);
    }
  }

  lemma {:induction false} RunOf(s: string, t: string)
    requires (forall i :: 0 <= i < |s| ==> IsDigit(s[i])) && t != [] && !IsDigit(t[0])
    ensures Run(s + t) == |s|
  {
    if s == [] {
      assert s + t == t;
    } else {
      assert (s + t)[1..] == s[1..] + t;
      RunOf(s[1..], t);
    }
  }

  // Digits followed by white space.
  lemma StrtoullPrint(n: nat, t: string)
    requires n < WORD64 && t != [] && IsSpace(t[0])
    ensures Strtoull(Print(n) + t) == Scan(n, |Print(n)|, false)
  {
    var s := Print(n);
    var u := s + t;
    assert u[0] == s[0] && IsDigit(u[0]);
    assert SkipSpaces(u) == 0;
    assert u[0..] == u;
    RunOf(s, t);
    assert u[..|s|] == s;
    PrintValue(n);
  }

  // A printed number in an item is read back, whatever padding and line end follow, unless it is so big that it
  // would be negative as a signed number and a minus sign lies behind it in memory.
  lemma ReadsBack(n: nat, t: string, beyond: string)
    requires n < WORD64 && t != [] && (forall i :: 0 <= i < |t| ==> IsSpace(t[i]))
    ensures SafeStrtoull(Print(n) + t, beyond) == if n >= SIGN64 && '-' in beyond then None else Some(n)
  {
    hide Strtoull, Print, Run, Value, SkipSpaces;
    var s := Print(n) + t;
    assert s + beyond == Print(n) + (t + beyond);
    StrtoullPrint(n, t + beyond);
    assert (s + beyond)[|Print(n)|] == t[0];
    NoMinus(Print(n), t, beyond);
  }

  lemma NoMinus(digits: string, t: string, beyond: string)
    requires (forall i :: 0 <= i < |digits| ==> IsDigit(digits[i])) && forall i :: 0 <= i < |t| ==> IsSpace(t[i])
    ensures '-' in digits + t + beyond <==> '-' in beyond
  {
    assert '-' !in digits && '-' !in t;
  }

  // ---- incr and decr ----

  datatype Delta = Incr(amount: nat) | Decr(amount: nat)

  // value += delta wraps around, and a decrement stops at 0.
  function Count(v: nat, d: Delta): (r: nat)
    requires v < WORD64
    ensures r < WORD64
  {
    match d
    case Incr(amount) => (v + amount) % WORD64
    case Decr(amount) => if amount > v then 0 else v - amount
  }

  function CountAll(v: nat, ds: seq<Delta>): (r: nat)
    requires v < WORD64
    ensures r < WORD64
  {
    if ds == [] then v else Count(CountAll(v, ds[..|ds| - 1]), ds[|ds| - 1])
  }

  function Spaces(n: nat): (s: string)
    ensures |s| == n && forall i :: 0 <= i < n ==> s[i] == ' '
  {
    seq(n, i => ' ')
  }

  // The bytes of the item after a count: in place when they fit and nobody else holds the item, with the old line
  // end kept, or in a new item.
  function Recount(data: string, digits: string, alone: bool): string {
    if |digits| + 2 <= |data| && alone then digits + Spaces(|data| - |digits| - 2) + data[|data| - 2..]
    else digits + CRLF
  }

  // The item's bytes are a number, padding and a line end.
  ghost predicate Holds(data: string, v: nat) {
    && v < WORD64 && |data| >= 2 && data[|data| - 2..] == CRLF
    && exists pad: nat :: data == Print(v) + Spaces(pad) + CRLF
  }

  lemma HoldsReads(data: string, v: nat, beyond: string)
    requires Holds(data, v)
    ensures SafeStrtoull(data, beyond) == if v >= SIGN64 && '-' in beyond then None else Some(v)
  {
    var pad: nat :| data == Print(v) + Spaces(pad) + CRLF;
    var t := Spaces(pad) + CRLF;
    assert data == Print(v) + t;
    ReadsBack(v, t, beyond);
  }

  lemma RecountHolds(data: string, v: nat, alone: bool)
    requires v < WORD64 && |data| >= 2 && data[|data| - 2..] == CRLF
    ensures Holds(Recount(data, Print(v), alone), v)
    ensures |Print(v)| + 2 <= |data| && alone ==> |Recount(data, Print(v), alone)| == |data|
  {
    var r := Recount(data, Print(v), alone);
    if |Print(v)| + 2 <= |data| && alone {
      assert r == Print(v) + Spaces(|data| - |Print(v)| - 2) + CRLF;
    } else {
      assert r == Print(v) + Spaces(0) + CRLF;
    }
    assert r[|r| - 2..] == CRLF;
  }

  // The item's bytes end with a line end and are read as v, unless v is negative as a signed number and a minus sign
  // lies behind them.
  ghost predicate Reads(data: string, v: nat) {
    && v < WORD64 && |data| >= 2 && data[|data| - 2..] == CRLF
    && forall beyond :: SafeStrtoull(data, beyond) == if v >= SIGN64 && '-' in beyond then None else Some(v)
  }

  lemma HoldsReads2(data: string, v: nat)
    requires Holds(data, v)
    ensures Reads(data, v)
  {
    hide Holds, SafeStrtoull;
    forall beyond ensures SafeStrtoull(data, beyond) == if v >= SIGN64 && '-' in beyond then None else Some(v) {
      HoldsReads(data, v, beyond);
    }
    HoldsEnd(data, v);
  }

  lemma HoldsEnd(data: string, v: nat)
    requires Holds(data, v)
    ensures v < WORD64 && |data| >= 2 && data[|data| - 2..] == CRLF
  {
  }

  // One command on an item, as far as its bytes go: what is stored is read, counted and printed.
  function Step(data: string, d: Delta, alone: bool, beyond: string): Option<string> {
    match SafeStrtoull(data, beyond)
    case None => None
    case Some(v) => if v < WORD64 then Some(Recount(data, Print(Count(v, d)), alone)) else None
  }

  // A command with what it finds: whether the item is nobody else's, and what lies behind it in memory.
  datatype DeltaCall = DeltaCall(d: Delta, alone: bool, beyond: string)

  function Deltas(cs: seq<DeltaCall>): (ds: seq<Delta>)
    ensures |ds| == |cs| && forall i :: 0 <= i < |cs| ==> ds[i] == cs[i].d
  {
    seq(|cs|, i requires 0 <= i < |cs| => cs[i].d)
  }

  function DeltaCalls(data: string, cs: seq<DeltaCall>): Option<string> {
    if cs == [] then Some(data)
    else
      var c := cs[|cs| - 1];
      match DeltaCalls(data, cs[..|cs| - 1])
      case None => None
      case Some(s) => Step(s, c.d, c.alone, c.beyond)
  }

  // Every number a command had to read was readable.
  ghost predicate Readable(v: nat, cs: seq<DeltaCall>)
    requires v < WORD64
  {
    forall i :: 0 <= i < |cs| ==> CountAll(v, Deltas(cs[..i])) < SIGN64 || '-' !in cs[i].beyond
  }

  lemma DeltasPrefix(cs: seq<DeltaCall>, i: nat)
    requires i <= |cs|
    ensures Deltas(cs)[..i] == Deltas(cs[..i])
  {
  }

  lemma ReadablePrefix(v: nat, cs: seq<DeltaCall>)
    requires v < WORD64 && cs != []
    ensures Readable(v, cs) <==>
      && Readable(v, cs[..|cs| - 1])
      && (CountAll(v, Deltas(cs[..|cs| - 1])) < SIGN64 || '-' !in cs[|cs| - 1].beyond)
  {
    hide CountAll, Readable, Deltas;
    var n := |cs| - 1;
    ReadableUpTo(v, cs, |cs|);
    ReadableUpTo(v, cs, n);
    assert cs[..|cs|] == cs;
    assert ReadAt(v, cs, n) <==> (CountAll(v, Deltas(cs[..n])) < SIGN64 || '-' !in cs[n].beyond);
  }

  // Command i could read its number.
  ghost predicate ReadAt(v: nat, cs: seq<DeltaCall>, i: nat)
    requires v < WORD64 && i < |cs|
  {
    CountAll(v, Deltas(cs[..i])) < SIGN64 || '-' !in cs[i].beyond
  }

  lemma ReadableUpTo(v: nat, cs: seq<DeltaCall>, n: nat)
    requires v < WORD64 && n <= |cs|
    ensures Readable(v, cs[..n]) <==> forall i: nat :: i < n ==> ReadAt(v, cs, i)
  {
    hide CountAll, Deltas;
    var p := cs[..n];
    assert forall i :: 0 <= i < n ==> p[..i] == cs[..i] && p[i] == cs[i];
    if Readable(v, p) {
      forall i: nat | i < n ensures ReadAt(v, cs, i) {
        assert CountAll(v, Deltas(p[..i])) < SIGN64 || '-' !in p[i].beyond;
      }
    } else {
      var i :| 0 <= i < n && !(CountAll(v, Deltas(p[..i])) < SIGN64 || '-' !in p[i].beyond);
      assert !ReadAt(v, cs, i);
    }
  }

  // Any sequence of incr and decr, in place or through new items, leaves bytes that are read as the fold of the
  // operations, with the line end last. It gets through exactly when every number on the way could be read.
  lemma {:induction false} CountsFold(data: string, v: nat, cs: seq<DeltaCall>)
    requires Reads(data, v)
    ensures DeltaCalls(data, cs).Some? <==> Readable(v, cs)
    ensures DeltaCalls(data, cs).Some? ==> Reads(DeltaCalls(data, cs).value, CountAll(v, Deltas(cs)))
    decreases |cs|
  {
    hide Reads, Readable, Step;
    ReadsRange(data, v);
    if cs == [] {
      EmptyReadable(v);
      assert Deltas(cs) == [];
    } else {
      var n := |cs| - 1;
      CountsFold(data, v, cs[..n]);
      ReadablePrefix(v, cs);
      DeltasPrefix(cs, n);
      if DeltaCalls(data, cs[..n]).Some? {
        StepFolds(DeltaCalls(data, cs[..n]).value, CountAll(v, Deltas(cs[..n])), cs[n]);
      }
    }
  }

  lemma EmptyReadable(v: nat)
    requires v < WORD64
    ensures Readable(v, [])
  {
  }

  lemma ReadsRange(data: string, v: nat)
    requires Reads(data, v)
    ensures v < WORD64
  {
  }

  lemma StepFolds(s: string, v: nat, c: DeltaCall)
    requires Reads(s, v)
    ensures v < WORD64 && (Step(s, c.d, c.alone, c.beyond).Some? <==> v < SIGN64 || '-' !in c.beyond)
    ensures Step(s, c.d, c.alone, c.beyond).Some? ==> Reads(Step(s, c.d, c.alone, c.beyond).value, Count(v, c.d))
  {
    hide SafeStrtoull, Holds;
    RecountHolds(s, Count(v, c.d), c.alone);
    HoldsReads2(Recount(s, Print(Count(v, c.d)), c.alone), Count(v, c.d));
  }

  // ---- in place ----

  // memcpy of the digits and memset of the padding
  method RecountInPlace(a: array<char>, digits: string)
    requires |digits| + 2 <= a.Length
    modifies a
    ensures a[..] == Recount(old(a[..]), digits, true)
  {
    var n := |digits|;
    forall i | 0 <= i < n { a[i] := digits[i]; }
    forall i | n <= i < a.Length - 2 { a[i] := ' '; }
    assert a[..] == digits + Spaces(a.Length - n - 2) + old(a[..])[a.Length - 2..];
  }

  // ---- what the fold is ----

  // The number after a command, in plain arithmetic: an increment differs from the sum by a multiple of 2^64 and is
  // below it, and what a decrement takes away is the amount, or all there is.
  ghost predicate Counted(v: nat, d: Delta, n: nat) {
    match d
    case Incr(amount) => n < WORD64 && (v + amount - n) % WORD64 == 0
    case Decr(amount) => n + (if v < amount then v else amount) == v
  }

  lemma CountCounts(v: nat, d: Delta)
    requires v < WORD64
    ensures Counted(v, d, Count(v, d)) && forall n: nat :: Counted(v, d, n) ==> n == Count(v, d)
  {
    if d.Incr? {
      assert v + d.amount - Count(v, d) == (v + d.amount) / WORD64 * WORD64;
      MultipleOf((v + d.amount) / WORD64);
    }
  }

  lemma MultipleOf(k: nat)
    ensures (k * WORD64) % WORD64 == 0
  {
  }

  // The amounts of all commands together.
  function Total(cs: seq<DeltaCall>): nat {
    if cs == [] then 0 else Total(cs[..|cs| - 1]) + cs[|cs| - 1].d.amount
  }

  lemma {:induction false} IncrsAdd(v: nat, cs: seq<DeltaCall>)
    requires v < WORD64 && forall i :: 0 <= i < |cs| ==> cs[i].d.Incr?
    ensures CountAll(v, Deltas(cs)) == (v + Total(cs)) % WORD64
    decreases |cs|
  {
    if cs == [] {
      assert Deltas(cs) == [];
    } else {
      var n := |cs| - 1;
      IncrsAdd(v, cs[..n]);
      DeltasPrefix(cs, n);
      Wraps(v + Total(cs[..n]), cs[n].d.amount);
    }
  }

  lemma Wraps(a: nat, b: nat)
    ensures (a % WORD64 + b) % WORD64 == (a + b) % WORD64
  {
  }

  lemma {:induction false} DecrsStop(v: nat, cs: seq<DeltaCall>)
    requires v < WORD64 && forall i :: 0 <= i < |cs| ==> cs[i].d.Decr?
    ensures CountAll(v, Deltas(cs)) == if Total(cs) > v then 0 else v - Total(cs)
    decreases |cs|
  {
    if cs == [] {
      assert Deltas(cs) == [];
    } else {
      var n := |cs| - 1;
      DecrsStop(v, cs[..n]);
      DeltasPrefix(cs, n);
    }
  }

  // Any number of incr leaves bytes that are read as the sum modulo 2^64.
  lemma IncrsStoreTheSum(data: string, v: nat, cs: seq<DeltaCall>)
    requires Reads(data, v) && (forall i :: 0 <= i < |cs| ==> cs[i].d.Incr?) && DeltaCalls(data, cs).Some?
    ensures Reads(DeltaCalls(data, cs).value, (v + Total(cs)) % WORD64)
  {
    hide Reads, CountAll, Total, DeltaCalls;
    ReadsRange(data, v);
    CountsFold(data, v, cs);
    IncrsAdd(v, cs);
  }

  // Any number of decr leaves bytes that are read as what is left, which is never less than 0.
  lemma DecrsStoreWhatIsLeft(data: string, v: nat, cs: seq<DeltaCall>)
    requires Reads(data, v) && (forall i :: 0 <= i < |cs| ==> cs[i].d.Decr?) && DeltaCalls(data, cs).Some?
    ensures Reads(DeltaCalls(data, cs).value, if Total(cs) > v then 0 else v - Total(cs))
  {
    hide Reads, CountAll, Total, DeltaCalls;
    ReadsRange(data, v);
    CountsFold(data, v, cs);
    DecrsStop(v, cs);
  }

  // ---- what safe_strtoull takes for a number ----

  // Digits that end the text, or have white space behind them, are a number; anything else behind them is refused.
  lemma DigitsAreTaken(s: string, t: string)
    requires s != [] && (forall i :: 0 <= i < |s| ==> IsDigit(s[i])) && Value(s) < SIGN64
    requires t != [] && !IsDigit(t[0])
    ensures SafeStrtoull(s + t, "") == if IsSpace(t[0]) then Some(Value(s)) else None
    ensures SafeStrtoull(s, "") == Some(Value(s))
  {
    hide Value, Run;
    ScanDigits(s, t);
    RunAll(s);
    assert s + "" == s && s[0..] == s && s[..|s|] == s;
    assert (s + t) + "" == s + t && (s + t)[|s|] == t[0];
  }

  lemma ScanRun(u: string, n: nat)
    requires u != [] && IsDigit(u[0]) && Run(u) == n && 0 < n <= |u| && Value(u[..n]) < WORD64
    ensures Strtoull(u) == Scan(Value(u[..n]), n, false)
  {
    hide Value, Run;
    assert SkipSpaces(u) == 0 && u[0..] == u && u[0..n] == u[..n];
  }

  lemma ScanDigits(s: string, t: string)
    requires s != [] && (forall i :: 0 <= i < |s| ==> IsDigit(s[i])) && Value(s) < WORD64
    requires t != [] && !IsDigit(t[0])
    ensures Strtoull(s + t) == Scan(Value(s), |s|, false)
  {
    hide Value, Run, Strtoull;
    var u := s + t;
    assert u[0] == s[0] && IsDigit(u[0]) && u[..|s|] == s;
    RunOf(s, t);
    ScanRun(u, |s|);
  }

  lemma {:induction false} RunAll(s: string)
    requires forall i :: 0 <= i < |s| ==> IsDigit(s[i])
    ensures Run(s) == |s|
  {
    if s != [] { RunAll(s[1..]); }
  }

  // Text that starts with neither a digit, a sign nor white space is no number.
  lemma NoDigitsNoNumber(s: string, beyond: string)
    requires s != [] && !IsDigit(s[0]) && !IsSpace(s[0]) && s[0] != '-' && s[0] != '+'
    ensures SafeStrtoull(s, beyond) == None
  {
    var u := s + beyond;
    assert u[0] == s[0] && SkipSpaces(u) == 0 && u[0..] == u && Run(u) == 0;
  }
}
