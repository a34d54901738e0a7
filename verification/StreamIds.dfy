/**
 Stream identifiers as the server scripts of valkeystream/native_transport.go
 compare them: as text, without ever converting a number that a script's
 floating-point arithmetic could not hold.
 */
module StreamIds {
  import opened Texts
  import opened Wrappers

  predicate Digit(c: char) { '0' <= c <= '9' }

  predicate Digits(s: string) { forall i :: 0 <= i < |s| ==> Digit(s[i]) }

  function DigitValue(c: char): nat
    requires Digit(c)
  {
    c as int - '0' as int
  }

  function Value(s: string): nat
    requires Digits(s)
  {
    if s == [] then 0 else Value(s[..|s| - 1]) * 10 + DigitValue(s[|s| - 1])
  }

  /** string.gsub(s, '^0+', '') */
  function TrimZeros(s: string): string
  {
    if s != [] && s[0] == '0' then TrimZeros(s[1..]) else s
  }

  function OrZero(s: string): string { if s == [] then "0" else s }

  predicate DecimalBefore(l: string, r: string)
  {
    var left := OrZero(TrimZeros(l));
    var right := OrZero(TrimZeros(r));
    if |left| != |right| then |left| < |right| else TextBefore(left, right)
  }

  // ---------------------------------------------------------------- decimal order is numeric order

  function Pow10(k: nat): (p: nat)
    ensures p > 0
  {
    if k == 0 then 1 else 10 * Pow10(k - 1)
  }

  lemma {:induction false} Pow10Monotone(a: nat, b: nat)
    requires a <= b
    ensures Pow10(a) <= Pow10(b)
  {
    if a < b { Pow10Monotone(a, b - 1); }
  }

  lemma {:induction false} ValueBound(s: string)
    requires Digits(s)
    ensures Value(s) < Pow10(|s|)
  {
    if s == [] {
    } else {
      ValueBound(s[..|s| - 1]);
    }
  }

  lemma {:induction false} ValueLower(s: string)
    requires Digits(s) && s != [] && s[0] != '0'
    ensures Value(s) >= Pow10(|s| - 1)
  {
    if |s| == 1 {
    } else {
      ValueLower(s[..|s| - 1]);
    }
  }

  lemma TenTimes(d: nat, p: nat, v: nat)
    ensures (d * p + v) * 10 == d * (10 * p) + v * 10
  {
  }

  lemma {:induction false} ValueCons(s: string)
    requires Digits(s) && s != []
    ensures Value(s) == DigitValue(s[0]) * Pow10(|s| - 1) + Value(s[1..])
  {
    if |s| == 1 {
    } else {
      var n := |s| - 1;
      ValueCons(s[..n]);
      assert s[..n][1..] == s[1..][..n - 1];
      assert Value(s[1..]) == Value(s[1..][..n - 1]) * 10 + DigitValue(s[n]);
      TenTimes(DigitValue(s[0]), Pow10(n - 1), Value(s[1..][..n - 1]));
    }
  }

  lemma {:induction false} TrimKeepsValue(s: string)
    requires Digits(s)
    ensures Digits(TrimZeros(s)) && Value(TrimZeros(s)) == Value(s)
    ensures TrimZeros(s) != [] ==> TrimZeros(s)[0] != '0'
  {
    if s != [] && s[0] == '0' {
      TrimKeepsValue(s[1..]);
      ValueCons(s);
    }
  }

  /** Same length: the order of the texts is the order of the values. */
  lemma {:induction false} TextOrder(l: string, r: string)
    requires Digits(l) && Digits(r) && |l| == |r|
    ensures TextBefore(l, r) <==> Value(l) < Value(r)
    ensures Value(l) == Value(r) ==> l == r
  {
    if l == [] {
    } else {
      TextOrder(l[1..], r[1..]);
      ValueCons(l);
      ValueCons(r);
      ValueBound(l[1..]);
      ValueBound(r[1..]);
      var p := Pow10(|l| - 1);
      LeadingDigit(DigitValue(l[0]), Value(l[1..]), DigitValue(r[0]), Value(r[1..]), p);
      assert l == [l[0]] + l[1..] && r == [r[0]] + r[1..];
    }
  }

  lemma LeadingDigit(a: nat, x: nat, b: nat, y: nat, p: nat)
    requires x < p && y < p
    ensures a * p + x < b * p + y <==> a < b || (a == b && x < y)
    ensures a * p + x == b * p + y <==> a == b && x == y
  {
    if a < b { MulStep(a, b, p); }
    if b < a { MulStep(b, a, p); }
  }

  lemma MulStep(a: nat, b: nat, p: nat)
    requires a < b
    ensures a * p + p <= b * p
  {
    assert (b - a - 1) * p >= 0;
    assert b * p == (b - a - 1) * p + a * p + p;
  }

  /** The scripts' comparison is numeric order on digit strings of any length. */
  lemma DecimalBeforeIsLess(l: string, r: string)
    requires Digits(l) && Digits(r)
    ensures DecimalBefore(l, r) <==> Value(l) < Value(r)
  {
    TrimKeepsValue(l);
    TrimKeepsValue(r);
    var left, right := OrZero(TrimZeros(l)), OrZero(TrimZeros(r));
    assert Value("0") == 0 by { assert "0"[..0] == []; }
    if |left| == |right| {
      TextOrder(left, right);
    } else if |left| < |right| {
      LongerIsLarger(left, right);
    } else {
      LongerIsLarger(right, left);
    }
  }

  lemma LongerIsLarger(s: string, t: string)
    requires Digits(s) && Digits(t) && 1 <= |s| < |t| && t[0] != '0'
    ensures Value(s) < Value(t)
  {
    ValueBound(s);
    ValueLower(t);
    Pow10Monotone(|s|, |t| - 1);
  }

  // ---------------------------------------------------------------- identifiers

  /** The index of the first '-', if any. */
  function Separator(id: string): (r: Option<nat>)
    ensures r.Some? ==> r.value < |id| && id[r.value] == '-'
  {
    if id == [] then None
    else if id[0] == '-' then Some(0)
    else match Separator(id[1..]) case None => None case Some(k) => Some(k + 1)
  }

  function ParseId(id: string): Option<(string, string)>
  {
    match Separator(id)
    case None => None
    case Some(k) => Some((id[..k], id[k + 1..]))
  }

  function IsBefore(l: string, r: string): Option<bool>
  {
    match (ParseId(l), ParseId(r))
    case (Some((lt, ls)), Some((rt, rs))) =>
      Some(DecimalBefore(lt, rt) || (lt == rt && DecimalBefore(ls, rs)))
    case _ => None
  }

  predicate DigitPair(id: string)
  {
    match ParseId(id)
    case None => false
    case Some((t, q)) => Digits(t) && Digits(q)
  }

  ghost predicate PairLess(lt: nat, ls: nat, rt: nat, rs: nat) { lt < rt || (lt == rt && ls < rs) }

  /**
   isBefore is the order on (milliseconds, sequence) exactly unless the same
   milliseconds are spelt differently and the sequences are in order: it compares
   the milliseconds' texts, not their values, for equality.
   */
  lemma IsBeforeExactly(l: string, r: string)
    requires DigitPair(l) && DigitPair(r)
    ensures var (lt, ls) := ParseId(l).value; var (rt, rs) := ParseId(r).value;
      (IsBefore(l, r) == Some(PairLess(Value(lt), Value(ls), Value(rt), Value(rs)))
       <==> !(Value(lt) == Value(rt) && lt != rt && Value(ls) < Value(rs)))
  {
    var (lt, ls) := ParseId(l).value;
    var (rt, rs) := ParseId(r).value;
    DecimalBeforeIsLess(lt, rt);
    DecimalBeforeIsLess(ls, rs);
  }

  /** 01-1 comes before 1-2 by value, and isBefore denies it. */
  lemma IsBeforeMisreadsLeadingZeros()
    ensures DigitPair("01-1") && DigitPair("1-2") && IsBefore("01-1", "1-2") == Some(false)
    ensures ParseId("01-1") == Some(("01", "1")) && ParseId("1-2") == Some(("1", "2"))
    ensures PairLess(Value("01"), Value("1"), Value("1"), Value("2"))
  {
    assert "01-1"[1..] == "1-1" && "1-1"[1..] == "-1" && "1-2"[1..] == "-2";
    assert Separator("-1") == Some(0) && Separator("1-1") == Some(1) && Separator("01-1") == Some(2);
    assert Separator("-2") == Some(0) && Separator("1-2") == Some(1);
    assert "01-1"[..2] == "01" && "01-1"[3..] == "1" && "1-2"[..1] == "1" && "1-2"[2..] == "2";
    assert Value("1") == 1 by { assert "1"[..0] == []; assert Value([]) == 0; }
    assert Value("2") == 2 by { assert "2"[..0] == []; assert Value([]) == 0; }
    assert Value("01") == 1 by { assert "01"[..1] == "0"; assert "0"[..0] == []; assert Value("0") == 0; }
    DecimalBeforeIsLess("01", "1");
  }

  // ---------------------------------------------------------------- what the server writes

  const U64: nat := 0x1_0000_0000_0000_0000

  /** A stream identifier: both halves are unsigned 64-bit numbers. */
  datatype RawId = Id(ms: nat, seqNo: nat)

  type StreamId = i: RawId | i.ms < U64 && i.seqNo < U64 witness Id(0, 0)

  predicate Less(a: StreamId, b: StreamId) { a.ms < b.ms || (a.ms == b.ms && a.seqNo < b.seqNo) }

  const ZeroId: StreamId := Id(0, 0)

  function DigitChar(n: nat): char
    requires n < 10
  {
    ('0' as int + n) as char
  }

  function Decimal(n: nat): string
  {
    if n < 10 then [DigitChar(n)] else Decimal(n / 10) + [DigitChar(n % 10)]
  }

  lemma {:induction false} DecimalValue(n: nat)
    ensures Decimal(n) != [] && Digits(Decimal(n)) && Value(Decimal(n)) == n
    ensures n > 0 ==> Decimal(n)[0] != '0'
  {
    if n >= 10 {
      DecimalValue(n / 10);
      var d := Decimal(n / 10);
      assert (d + [DigitChar(n % 10)])[..|d|] == d;
    } else {
      assert [DigitChar(n)][..0] == [];
    }
  }

  lemma {:induction false} DecimalLength(n: nat, k: nat)
    requires 1 <= k && n < Pow10(k)
    ensures |Decimal(n)| <= k
  {
    if n >= 10 {
      assert Pow10(1) == 10;
      DecimalLength(n / 10, k - 1);
    }
  }

  function Format(id: StreamId): string { Decimal(id.ms) + "-" + Decimal(id.seqNo) }

  lemma {:induction false} SeparatorOf(d: string, rest: string)
    requires Digits(d)
    ensures Separator(d + "-" + rest) == Some(|d|)
  {
    if d == [] {
      assert d + "-" + rest == ['-'] + rest;
    } else {
      SeparatorOf(d[1..], rest);
      assert (d + "-" + rest)[1..] == d[1..] + "-" + rest;
    }
  }

  lemma ParseFormat(id: StreamId)
    ensures ParseId(Format(id)) == Some((Decimal(id.ms), Decimal(id.seqNo)))
  {
    DecimalValue(id.ms);
    SeparatorOf(Decimal(id.ms), Decimal(id.seqNo));
    var k := |Decimal(id.ms)|;
    assert Format(id)[..k] == Decimal(id.ms) && Format(id)[k + 1..] == Decimal(id.seqNo);
  }

  lemma FormatLength(id: StreamId)
    ensures 3 <= |Format(id)| <= 41
  {
    assert Pow10(4) == 10_000;
    assert Pow10(8) == 1_0000_0000;
    assert Pow10(12) == 1_0000_0000_0000;
    assert Pow10(16) == 1_0000_0000_0000_0000;
    assert Pow10(20) == 1_0000_0000_0000_0000_0000;
    DecimalLength(id.ms, 20);
    DecimalLength(id.seqNo, 20);
    DecimalValue(id.ms);
    DecimalValue(id.seqNo);
  }

  /** On every pair of identifiers a server can produce, the scripts' order is the stream order. */
  lemma IsBeforeOnIds(a: StreamId, b: StreamId)
    ensures IsBefore(Format(a), Format(b)) == Some(Less(a, b))
  {
    ParseFormat(a);
    ParseFormat(b);
    DecimalValue(a.ms);
    DecimalValue(a.seqNo);
    DecimalValue(b.ms);
    DecimalValue(b.seqNo);
    DecimalBeforeIsLess(Decimal(a.ms), Decimal(b.ms));
    DecimalBeforeIsLess(Decimal(a.seqNo), Decimal(b.seqNo));
  }
}
