/** Text operations the key layout rests on: trimming, splitting at '/', decimal numbers, lexical order. */
module Text {
  import opened Common

  // ---------------------------------------------------------------- lexical order

  /** Strict lexical order, character by character. */
  predicate Less(a: string, b: string) {
    b != "" && (a == "" || a[0] < b[0] || (a[0] == b[0] && Less(a[1..], b[1..])))
  }

  predicate AtMost(a: string, b: string) { a == b || Less(a, b) }

  lemma {:induction false} LessIrreflexive(a: string)
    ensures !Less(a, a)
  {
    if a != "" { LessIrreflexive(a[1..]); }
  }

  lemma {:induction false} LessTransitive(a: string, b: string, c: string)
    requires Less(a, b) && Less(b, c)
    ensures Less(a, c)
  {
    if a != "" && a[0] == b[0] == c[0] { LessTransitive(a[1..], b[1..], c[1..]); }
  }

  lemma LessAsymmetric(a: string, b: string)
    ensures !(Less(a, b) && Less(b, a))
  {
    LessIrreflexive(a);
    if Less(a, b) && Less(b, a) { LessTransitive(a, b, a); }
  }

  lemma {:induction false} LessTotal(a: string, b: string)
    ensures a == b || Less(a, b) || Less(b, a)
  {
    if a != "" && b != "" && a[0] == b[0] {
      LessTotal(a[1..], b[1..]);
      assert a == [a[0]] + a[1..] && b == [b[0]] + b[1..];
    }
  }

  lemma {:induction false} LessAppend(a: string, b: string, s: string, t: string)
    requires Less(a, b) && |a| == |b|
    ensures Less(a + s, b + t)
  {
    assert (a + s)[1..] == a[1..] + s && (b + t)[1..] == b[1..] + t;
    if a[0] == b[0] { LessAppend(a[1..], b[1..], s, t); }
  }

  lemma {:induction false} LessAfter(p: string, a: string, b: string)
    ensures Less(p + a, p + b) == Less(a, b)
  {
    if p == "" {
      assert p + a == a && p + b == b;
    } else {
      assert (p + a)[1..] == p[1..] + a && (p + b)[1..] == p[1..] + b;
      LessAfter(p[1..], a, b);
    }
  }

  // ---------------------------------------------------------------- splitting and joining

  predicate NoSlash(s: string) { '/' !in s }

  /** One more character in front of the first segment, or a new empty one before it. */
  function Attach(c: char, r: seq<string>): (t: seq<string>)
    requires r != []
    ensures t != []
  {
    if c == '/' then [""] + r else [[c] + r[0]] + r[1..]
  }

  function Split(s: string): (r: seq<string>)
    ensures |r| > 0
  {
    if s == "" then [""]
    else Attach(s[0], Split(s[1..]))
  }

  function Join(segs: seq<string>): string {
    if segs == [] then ""
    else if |segs| == 1 then segs[0]
    else segs[0] + "/" + Join(segs[1..])
  }

  lemma {:induction false} SplitNoSlash(s: string)
    ensures forall x :: x in Split(s) ==> NoSlash(x)
  {
    if s != "" {
      SplitNoSlash(s[1..]);
      var r := Split(s[1..]);
      forall x | x in Split(s) ensures NoSlash(x) {
        assert x in r || x == "" || x == [s[0]] + r[0];
        assert r[0] in r;
      }
    }
  }

  lemma {:induction false} JoinSplit(s: string)
    ensures Join(Split(s)) == s
  {
    if s != "" {
      JoinSplit(s[1..]);
      var r := Split(s[1..]);
      if s[0] == '/' {
        assert ([""] + r)[1..] == r;
      } else if |r| > 1 {
        assert ([[s[0]] + r[0]] + r[1..])[1..] == r[1..];
      }
    }
  }

  lemma {:induction false} SplitWord(w: string)
    requires NoSlash(w)
    ensures Split(w) == [w]
  {
    if w != "" {
      SplitWord(w[1..]);
      assert w[0] in w && w == [w[0]] + w[1..];
    }
  }

  lemma SplitHead(c: char, t: string)
    ensures Split([c] + t) == Attach(c, Split(t))
  {
    assert ([c] + t)[1..] == t;
  }

  lemma AttachAppend(c: char, r: seq<string>, t: seq<string>)
    requires r != []
    ensures Attach(c, r + t) == Attach(c, r) + t
  {
    assert (r + t)[1..] == r[1..] + t;
  }

  lemma {:induction false} SplitAt(a: string, b: string)
    ensures Split(a + "/" + b) == Split(a) + Split(b)
  {
    if a == "" {
      SplitHead('/', b);
      assert a + "/" + b == ['/'] + b;
    } else {
      var t := a[1..];
      SplitAt(t, b);
      SplitHead(a[0], t + "/" + b);
      SplitHead(a[0], t);
      AttachAppend(a[0], Split(t), Split(b));
      assert a + "/" + b == [a[0]] + (t + "/" + b);
      assert a == [a[0]] + t;
    }
  }

  lemma {:induction false} SplitJoin(segs: seq<string>)
    requires segs != [] && forall x :: x in segs ==> NoSlash(x)
    ensures Split(Join(segs)) == segs
  {
    SplitWord(segs[0]);
    if |segs| > 1 {
      SplitJoin(segs[1..]);
      SplitAt(segs[0], Join(segs[1..]));
    }
  }

  lemma {:induction false} JoinAppend(a: seq<string>, b: seq<string>)
    requires a != [] && b != []
    ensures Join(a + b) == Join(a) + "/" + Join(b)
  {
    assert (a + b)[1..] == a[1..] + b;
    if |a| > 1 {
      JoinAppend(a[1..], b);
      assert a[0] + "/" + (Join(a[1..]) + "/" + Join(b)) == (a[0] + "/" + Join(a[1..])) + "/" + Join(b);
    } else {
      assert a[1..] + b == b;
    }
  }

  // ---------------------------------------------------------------- trimming

  function TrimLeft(s: string): string {
    if s != "" && s[0] == '/' then TrimLeft(s[1..]) else s
  }

  function TrimRight(s: string): string {
    if s != "" && s[|s| - 1] == '/' then TrimRight(s[..|s| - 1]) else s
  }

  /** Both ends cleared of slashes. */
  function TrimSlashes(s: string): string { TrimRight(TrimLeft(s)) }

  lemma {:induction false} TrimRightKeeps(s: string)
    ensures TrimRight(s) <= s
    ensures TrimRight(s) != "" ==> TrimRight(s)[|TrimRight(s)| - 1] != '/'
  {
    if s != "" && s[|s| - 1] == '/' { TrimRightKeeps(s[..|s| - 1]); }
  }

  lemma {:induction false} TrimLeftClears(s: string)
    ensures TrimLeft(s) != "" ==> TrimLeft(s)[0] != '/'
  {
    if s != "" && s[0] == '/' { TrimLeftClears(s[1..]); }
  }

  lemma TrimSlashesEnds(s: string)
    ensures var t := TrimSlashes(s); t != "" ==> t[0] != '/' && t[|t| - 1] != '/'
  {
    TrimLeftClears(s);
    TrimRightKeeps(TrimLeft(s));
  }

  /** `s` without the suffix, if it has it. */
  function TrimSuffix(s: string, suffix: string): string {
    if |suffix| <= |s| && s[|s| - |suffix|..] == suffix then s[..|s| - |suffix|] else s
  }

  predicate HasPrefix(s: string, prefix: string) { prefix <= s }

  // ---------------------------------------------------------------- decimal numbers

  function Digit(d: nat): char
    requires d < 10
  {
    "0123456789"[d]
  }

  predicate IsDigit(c: char) { '0' <= c <= '9' }

  function Decimal(n: nat): string {
    if n < 10 then [Digit(n)] else Decimal(n / 10) + [Digit(n % 10)]
  }

  function Pow10(w: nat): nat { if w == 0 then 1 else 10 * Pow10(w - 1) }

  /** The last `w` decimal digits of `n`. */
  function Fixed(n: nat, w: nat): string {
    if w == 0 then "" else Fixed(n / 10, w - 1) + [Digit(n % 10)]
  }

  function Zeros(n: nat): string { if n == 0 then "" else "0" + Zeros(n - 1) }

  /** Zero-padded on the left to at least `w` characters. */
  function Padded(n: nat, w: nat): string {
    var d := Decimal(n);
    if |d| < w then Zeros(w - |d|) + d else d
  }

  /** The number a string of digits stands for. */
  function Value(s: string): Option<nat> {
    if s == "" then Some(0)
    else if !IsDigit(s[|s| - 1]) then None
    else
      match Value(s[..|s| - 1])
      case None => None
      case Some(v) => Some(10 * v + (s[|s| - 1] - '0') as nat)
  }

  lemma {:induction false} FixedLength(n: nat, w: nat)
    ensures |Fixed(n, w)| == w
  {
    if w > 0 { FixedLength(n / 10, w - 1); }
  }

  lemma {:induction false} FixedZero(w: nat)
    ensures Fixed(0, w) == Zeros(w)
    ensures Zeros(w) + "0" == "0" + Zeros(w)
  {
    if w > 0 {
      FixedZero(w - 1);
      assert Zeros(w) + "0" == "0" + (Zeros(w - 1) + "0");
    }
  }

  lemma {:induction false} PaddedIsFixed(n: nat, w: nat)
    requires w > 0 && n < Pow10(w)
    ensures Padded(n, w) == Fixed(n, w) && |Decimal(n)| <= w
  {
    if n < 10 {
      FixedZero(w - 1);
    } else {
      PaddedIsFixed(n / 10, w - 1);
      if |Decimal(n)| < w {
        assert Zeros(w - |Decimal(n)|) + Decimal(n) == Padded(n / 10, w - 1) + [Digit(n % 10)];
      }
    }
  }

  lemma {:induction false} FixedValue(n: nat, w: nat)
    requires n < Pow10(w)
    ensures Value(Fixed(n, w)) == Some(n)
  {
    if w > 0 {
      FixedValue(n / 10, w - 1);
      assert Fixed(n, w)[..|Fixed(n, w)| - 1] == Fixed(n / 10, w - 1);
    }
  }

  lemma {:induction false} DecimalChars(n: nat)
    ensures Decimal(n) != "" && forall c :: c in Decimal(n) ==> IsDigit(c)
  {
    if n >= 10 { DecimalChars(n / 10); }
  }

  lemma {:induction false} ZerosChars(n: nat)
    ensures |Zeros(n)| == n && forall c :: c in Zeros(n) ==> c == '0'
  {
    if n > 0 { ZerosChars(n - 1); }
  }

  lemma PaddedChars(n: nat, w: nat)
    ensures |Padded(n, w)| >= w && Padded(n, w) != ""
    ensures forall c :: c in Padded(n, w) ==> IsDigit(c)
  {
    DecimalChars(n);
    if |Decimal(n)| < w { ZerosChars(w - |Decimal(n)|); }
  }

  lemma {:induction false} DecimalValue(n: nat)
    ensures Value(Decimal(n)) == Some(n)
  {
    if n >= 10 {
      DecimalValue(n / 10);
      assert Decimal(n)[..|Decimal(n)| - 1] == Decimal(n / 10);
    } else {
      assert Decimal(n)[..0] == "";
    }
  }

  lemma {:induction false} ZerosValue(k: nat)
    ensures Value(Zeros(k)) == Some(0)
  {
    if k > 0 {
      ZerosValue(k - 1);
      FixedZero(k - 1);
      assert (Zeros(k - 1) + "0")[..|Zeros(k - 1) + "0"| - 1] == Zeros(k - 1);
    }
  }

  lemma {:induction false} ZeroPrefixValue(k: nat, d: string)
    requires Value(d).Some?
    ensures Value(Zeros(k) + d) == Value(d)
  {
    if d == "" {
      ZerosValue(k);
      assert Zeros(k) + d == Zeros(k);
    } else {
      var front := d[..|d| - 1];
      ZeroPrefixValue(k, front);
      assert (Zeros(k) + d)[..|Zeros(k) + d| - 1] == Zeros(k) + front;
    }
  }

  lemma PaddedValue(n: nat, w: nat)
    ensures Value(Padded(n, w)) == Some(n)
  {
    DecimalValue(n);
    if |Decimal(n)| < w { ZeroPrefixValue(w - |Decimal(n)|, Decimal(n)); }
  }

  /** Below the same power of ten, the numbers without their last digits decide, and then the last digits. */
  lemma LastDigits(a: nat, b: nat, w: nat)
    requires w > 0 && a < b < Pow10(w)
    ensures b / 10 < Pow10(w - 1)
    ensures a / 10 < b / 10 || (a / 10 == b / 10 && a % 10 < b % 10)
  {
  }

  lemma DigitOrder(a: nat, b: nat)
    requires a < b < 10
    ensures Less([Digit(a)], [Digit(b)])
  {
  }

  lemma {:induction false} FixedOrder(a: nat, b: nat, w: nat)
    requires a < b < Pow10(w)
    ensures Less(Fixed(a, w), Fixed(b, w))
  {
    LastDigits(a, b, w);
    var x, y := [Digit(a % 10)], [Digit(b % 10)];
    if a / 10 < b / 10 {
      FixedLength(a / 10, w - 1);
      FixedLength(b / 10, w - 1);
      FixedOrder(a / 10, b / 10, w - 1);
      LessAppend(Fixed(a / 10, w - 1), Fixed(b / 10, w - 1), x, y);
    } else {
      DigitOrder(a % 10, b % 10);
      LessAfter(Fixed(a / 10, w - 1), x, y);
    }
  }
}
