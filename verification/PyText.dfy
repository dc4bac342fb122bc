/** The Python string operations the agent kernel relies on: `strip`, `lower`, the zero-padded
    task ids it mints, and the code-point order that breaks ties between priorities. */
module PyText {

  datatype Option<+T> = None | Some(value: T)

  /** The characters `str.strip()` removes. */
  predicate IsSpace(c: char) {
    || '\t' <= c <= '\r'
    || '\U{1c}' <= c <= ' '
    || c == '\U{85}' || c == '\U{a0}' || c == '\U{1680}'
    || '\U{2000}' <= c <= '\U{200a}'
    || c == '\U{2028}' || c == '\U{2029}' || c == '\U{202f}' || c == '\U{205f}' || c == '\U{3000}'
  }

  function LStrip(s: string): (r: string)
    ensures r == "" || !IsSpace(r[0])
  {
    if s == "" then "" else if IsSpace(s[0]) then LStrip(s[1..]) else s
  }

  function RStrip(s: string): (r: string)
    ensures r <= s
    ensures r == "" || !IsSpace(r[|r| - 1])
  {
    if s == "" then "" else if IsSpace(s[|s| - 1]) then RStrip(s[..|s| - 1]) else s
  }

  function Strip(s: string): (r: string)
    ensures r == "" || (!IsSpace(r[0]) && !IsSpace(r[|r| - 1]))
  {
    RStrip(LStrip(s))
  }

  lemma {:induction false} StripIdempotent(s: string)
    ensures Strip(Strip(s)) == Strip(s)
  {}

  predicate Blank(s: string) {
    Strip(s) == ""
  }

  /** `x or default`. */
  function OrText(x: string, default: string): string {
    if x == "" then default else x
  }

  /** Lower-casing of ASCII letters; the words it is compared with contain no other letters. */
  function Lower(s: string): (r: string)
    ensures |r| == |s|
  {
    seq(|s|, i requires 0 <= i < |s| =>
      if 'A' <= s[i] <= 'Z' then (s[i] as int - 'A' as int + 'a' as int) as char else s[i])
  }

  /* ---- minted ids ---- */

  function DigitOf(d: nat): char
    requires d < 10
  {
    "0123456789"[d]
  }

  function DigitValue(c: char): nat {
    if '0' <= c <= '9' then c as int - '0' as int else 0
  }

  function Digits(n: nat): string {
    if n < 10 then [DigitOf(n)] else Digits(n / 10) + [DigitOf(n % 10)]
  }

  function ZeroPad(s: string, width: nat): string {
    if |s| >= width then s else "0" + ZeroPad(s, width - 1)
  }

  function ParseNat(s: string): nat {
    if s == "" then 0 else 10 * ParseNat(s[..|s| - 1]) + DigitValue(s[|s| - 1])
  }

  /** `f"t{seq:04d}"`, the id the kernel mints for a task. */
  function MintedId(n: nat): string {
    "t" + ZeroPad(Digits(n), 4)
  }

  /** `f"sg_{idx + 1:02d}"`, the id given to a planned subgoal that has none. */
  function PositionId(n: nat): string {
    "sg_" + ZeroPad(Digits(n), 2)
  }

  ghost predicate Minted(id: string) {
    exists n: nat :: id == MintedId(n)
  }

  lemma {:induction false} ParseDigits(n: nat)
    ensures ParseNat(Digits(n)) == n
  {
    var s := Digits(n);
    if n >= 10 {
      ParseDigits(n / 10);
      assert s[..|s| - 1] == Digits(n / 10);
    } else {
      assert s[..|s| - 1] == "";
    }
  }

  lemma {:induction false} ParseZero(s: string)
    ensures ParseNat("0" + s) == ParseNat(s)
  {
    var z := "0" + s;
    if s == "" {
      assert z[..0] == "";
    } else {
      ParseZero(s[..|s| - 1]);
      assert z[..|z| - 1] == "0" + s[..|s| - 1];
    }
  }

  lemma {:induction false} ParsePadded(s: string, width: nat)
    ensures ParseNat(ZeroPad(s, width)) == ParseNat(s)
    decreases width
  {
    if |s| < width {
      ParsePadded(s, width - 1);
      ParseZero(ZeroPad(s, width - 1));
    }
  }

  /** Two minted ids are equal only if their sequence numbers are. */
  lemma {:induction false} MintedIdInjective(a: nat, b: nat)
    requires MintedId(a) == MintedId(b)
    ensures a == b
  {
    assert ZeroPad(Digits(a), 4) == MintedId(a)[1..] == MintedId(b)[1..] == ZeroPad(Digits(b), 4);
    ParsePadded(Digits(a), 4);
    ParsePadded(Digits(b), 4);
    ParseDigits(a);
    ParseDigits(b);
  }

  lemma {:induction false} PositionIdNotMinted(n: nat)
    ensures !Minted(PositionId(n))
  {
    assert PositionId(n)[0] == 's';
    assert forall k: nat :: MintedId(k)[0] == 't';
  }

  /* ---- code-point order ---- */

  predicate StrLess(a: string, b: string) {
    if b == "" then false
    else if a == "" then true
    else if a[0] != b[0] then a[0] < b[0]
    else StrLess(a[1..], b[1..])
  }

  lemma {:induction false} StrLessTransitive(a: string, b: string, c: string)
    requires StrLess(a, b) && StrLess(b, c)
    ensures StrLess(a, c)
  {
    if a != "" && a[0] == b[0] && b[0] == c[0] {
      StrLessTransitive(a[1..], b[1..], c[1..]);
    }
  }

  lemma {:induction false} StrLessIrreflexive(a: string)
    ensures !StrLess(a, a)
  {
    if a != "" {
      StrLessIrreflexive(a[1..]);
    }
  }

  lemma {:induction false} StrLessTotal(a: string, b: string)
    ensures a == b || StrLess(a, b) || StrLess(b, a)
  {
    if a != "" && b != "" && a[0] == b[0] {
      StrLessTotal(a[1..], b[1..]);
      assert a == [a[0]] + a[1..] && b == [b[0]] + b[1..];
    }
  }

  /** It is the order of the first difference: a proper prefix comes first, and otherwise the smaller character. */
  lemma {:induction false} StrLessIff(a: string, b: string)
    ensures StrLess(a, b) <==>
              exists n: nat :: n <= |a| && n < |b| && a[..n] == b[..n] && (n == |a| || a[n] < b[n])
  {
    if a == "" || b == "" || a[0] != b[0] {
      if b != "" { assert a[..0] == b[..0]; }
    } else {
      var x, y := a[1..], b[1..];
      StrLessIff(x, y);
      if n: nat :| n <= |x| && n < |y| && x[..n] == y[..n] && (n == |x| || x[n] < y[n]) {
        assert a[..n + 1] == [a[0]] + x[..n] && b[..n + 1] == [b[0]] + y[..n];
      }
      if n: nat :| n <= |a| && n < |b| && a[..n] == b[..n] && (n == |a| || a[n] < b[n]) {
        assert n > 0;
        assert x[..n - 1] == a[..n][1..] && y[..n - 1] == b[..n][1..];
      }
    }
  }

  /* ---- what the operations do ---- */

  predicate AllSpace(s: string) {
    forall k :: 0 <= k < |s| ==> IsSpace(s[k])
  }

  lemma {:induction false} LStripIs(s: string) returns (a: nat)
    ensures a <= |s| && AllSpace(s[..a]) && LStrip(s) == s[a..]
  {
    a := 0;
    if s != "" && IsSpace(s[0]) {
      var b := LStripIs(s[1..]);
      a := b + 1;
      assert s[..a] == [s[0]] + s[1..][..b];
    }
  }

  lemma {:induction false} RStripIs(s: string) returns (b: nat)
    ensures b <= |s| && AllSpace(s[b..]) && RStrip(s) == s[..b]
  {
    b := |s|;
    if s != "" && IsSpace(s[|s| - 1]) {
      b := RStripIs(s[..|s| - 1]);
      assert s[b..] == s[..|s| - 1][b..] + [s[|s| - 1]];
    }
  }

  /** Stripping takes white space off both ends, and nothing else. */
  lemma {:induction false} StripIs(s: string) returns (a: nat, b: nat)
    ensures a <= b <= |s| && AllSpace(s[..a]) && AllSpace(s[b..]) && Strip(s) == s[a..b]
  {
    a := LStripIs(s);
    var c := RStripIs(s[a..]);
    b := a + c;
    assert s[a..][c..] == s[b..];
  }

  const CAPITALS := "ABCDEFGHIJKLMNOPQRSTUVWXYZ"
  const SMALLS := "abcdefghijklmnopqrstuvwxyz"

  /** Capital letters become the small ones at the same place of the alphabet; ... */
  lemma {:induction false} LowerIs(s: string, i: nat, k: nat)
    requires i < |s| && k < |CAPITALS| && s[i] == CAPITALS[k]
    ensures k < |SMALLS| && Lower(s)[i] == SMALLS[k]
  {}

  /** ... other characters stay. */
  lemma {:induction false} LowerKeeps(s: string, i: nat)
    requires i < |s| && s[i] !in CAPITALS
    ensures Lower(s)[i] == s[i]
  {
    CapitalsAre(s[i]);
  }

  lemma {:induction false} CapitalsAre(c: char)
    ensures 'A' <= c <= 'Z' ==> c in CAPITALS
  {
    if 'A' <= c <= 'Z' {
      assert CAPITALS[c as int - 'A' as int] == c;
    }
  }

  /** The decimal digits of a number, without leading zeros. */
  lemma {:induction false} DigitsAre(n: nat)
    ensures var s := Digits(n);
            s != "" && AllDigits(s) && (s[0] == '0' ==> n == 0 && |s| == 1)
  {
    if n >= 10 { DigitsAre(n / 10); }
  }

  predicate AllDigits(s: string) {
    forall k :: 0 <= k < |s| ==> '0' <= s[k] <= '9'
  }

  /** Zeros are put in front up to the width, and no more. */
  lemma {:induction false} ZeroPadIs(s: string, width: nat)
    requires AllDigits(s)
    ensures var r := ZeroPad(s, width); AllDigits(r) && |r| >= width && (|r| > width ==> r == s)
    decreases width
  {
    if |s| < width {
      ZeroPadIs(s, width - 1);
      MoreDigits(ZeroPad(s, width - 1));
    }
  }

  lemma {:induction false} MoreDigits(s: string)
    requires AllDigits(s)
    ensures AllDigits("0" + s)
  {
    assert "0"[0] == '0';
  }

  /** `f"t{n:04d}"`: at least four digits, with no more zeros in front than that takes. */
  lemma {:induction false} MintedIdIs(n: nat)
    ensures var id := MintedId(n);
            && id[0] == 't' && |id| >= 5 && ParseNat(id[1..]) == n
            && AllDigits(id[1..]) && (|id| > 5 ==> id[1] != '0')
  {
    PaddedIs(n, 4);
  }

  lemma {:induction false} PaddedIs(n: nat, width: nat)
    requires width >= 1
    ensures var s := ZeroPad(Digits(n), width);
            |s| >= width && ParseNat(s) == n && AllDigits(s) && (|s| > width ==> s[0] != '0')
  {
    DigitsAre(n);
    ZeroPadIs(Digits(n), width);
    ParsePadded(Digits(n), width);
    ParseDigits(n);
  }

  /** `f"sg_{n:02d}"`. */
  lemma {:induction false} PositionIdIs(n: nat)
    ensures var id := PositionId(n);
            && id[..3] == "sg_" && |id| >= 5 && ParseNat(id[3..]) == n
            && AllDigits(id[3..]) && (|id| > 5 ==> id[3] != '0')
  {
    PaddedIs(n, 2);
  }

  function NotBlank(xs: seq<string>): (r: seq<bool>)
    ensures |r| == |xs| && forall j :: 0 <= j < |xs| ==> r[j] == !Blank(xs[j])
  {
    seq(|xs|, j requires 0 <= j < |xs| => !Blank(xs[j]))
  }

  lemma {:induction false} NotBlankNext(xs: seq<string>, x: string)
    ensures NotBlank(xs + [x]) == NotBlank(xs) + [!Blank(x)]
  {}

  const WHITE_SPACE :=
    "\t\n\U{b}\U{c}\r\U{1c}\U{1d}\U{1e}\U{1f} \U{85}\U{a0}\U{1680}\U{2000}\U{2001}\U{2002}\U{2003}\U{2004}\U{2005}"
    + "\U{2006}\U{2007}\U{2008}\U{2009}\U{200a}\U{2028}\U{2029}\U{202f}\U{205f}\U{3000}"

  lemma {:induction false} SpaceIff(c: char)
    ensures IsSpace(c) <==> c in WHITE_SPACE
  {}
}
