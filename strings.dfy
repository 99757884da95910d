/** String primitives the validator relies on, written out over `seq<char>`.
    A Dafny `char` is one Unicode scalar value, so the rune count of a Go
    string is the length of the sequence. */
module Strings {

  // ---------------------------------------------------------------------------
  // White space and trimming
  // ---------------------------------------------------------------------------

  /** White space as Go's `unicode.IsSpace` defines it: the six ASCII spaces,
      U+0085 and U+00A0, and the other characters of Unicode's White_Space
      property. */
  predicate IsSpace(c: char)
  {
    c == '\t' || c == '\n' || c == '\U{000B}' || c == '\U{000C}' || c == '\r' || c == ' '
    || c == '\U{0085}' || c == '\U{00A0}' || c == '\U{1680}'
    || ('\U{2000}' <= c <= '\U{200A}')
    || c == '\U{2028}' || c == '\U{2029}' || c == '\U{202F}' || c == '\U{205F}' || c == '\U{3000}'
  }

  predicate AllSpace(s: string)
  {
    forall i :: 0 <= i < |s| ==> IsSpace(s[i])
  }

  /** `s` with its leading white space removed: a suffix of `s`. */
  function TrimLeft(s: string): (r: string)
    ensures |r| <= |s| && r == s[|s| - |r|..]
  {
    if s == [] then []
    else if IsSpace(s[0]) then TrimLeft(s[1..])
    else s
  }

  /** `s` with its trailing white space removed: a prefix of `s`. */
  function TrimRight(s: string): (r: string)
    ensures |r| <= |s| && r == s[..|r|]
  {
    if s == [] then []
    else if IsSpace(s[|s| - 1]) then TrimRight(s[..|s| - 1])
    else s
  }

  /** Go's `strings.TrimSpace`: white space removed at both ends. */
  function TrimSpace(s: string): (r: string)
    ensures |r| <= |s|
  {
    TrimRight(TrimLeft(s))
  }

  /** `TrimLeft` removes exactly the leading white space: it stops at the
      first other character, and only an all-space string vanishes. */
  lemma {:induction false} TrimLeftSpec(s: string)
    ensures TrimLeft(s) == [] <==> AllSpace(s)
    ensures TrimLeft(s) != [] ==> !IsSpace(TrimLeft(s)[0])
    ensures AllSpace(s[..|s| - |TrimLeft(s)|])
  {
    if s != [] && IsSpace(s[0]) {
      TrimLeftSpec(s[1..]);
      var k := |s| - |TrimLeft(s)|;
      assert s[..k] == [s[0]] + s[1..][..k - 1];
    }
  }

  /** `TrimRight` removes exactly the trailing white space. */
  lemma {:induction false} TrimRightSpec(s: string)
    ensures TrimRight(s) == [] <==> AllSpace(s)
    ensures TrimRight(s) != [] ==> !IsSpace(TrimRight(s)[|TrimRight(s)| - 1])
    ensures AllSpace(s[|TrimRight(s)|..])
  {
    if s != [] && IsSpace(s[|s| - 1]) {
      var front := s[..|s| - 1];
      TrimRightSpec(front);
      var k := |TrimRight(s)|;
      assert s[k..] == front[k..] + [s[|s| - 1]];
      if AllSpace(front) {
        assert AllSpace(s) by {
          forall i | 0 <= i < |s| ensures IsSpace(s[i]) {
            if i < |front| { assert s[i] == front[i]; }
          }
        }
      }
      if AllSpace(s) {
        forall i | 0 <= i < |front| ensures IsSpace(front[i]) {
          assert front[i] == s[i];
        }
      }
    }
  }

  /** The result of `TrimSpace` is empty exactly when every character of `s`
      is white space; otherwise it neither starts nor ends with white space,
      and it is `s` without a white-space prefix and suffix. */
  lemma TrimSpaceSpec(s: string)
    ensures TrimSpace(s) == [] <==> AllSpace(s)
    ensures TrimSpace(s) != [] ==> !IsSpace(TrimSpace(s)[0]) && !IsSpace(TrimSpace(s)[|TrimSpace(s)| - 1])
  {
    var l := TrimLeft(s);
    TrimLeftSpec(s);
    TrimRightSpec(l);
    if TrimSpace(s) != [] {
      assert TrimSpace(s)[0] == l[0];
    }
  }

  /** Trimming is idempotent. */
  lemma TrimSpaceIdempotent(s: string)
    ensures TrimSpace(TrimSpace(s)) == TrimSpace(s)
  {
    var t := TrimSpace(s);
    TrimSpaceSpec(s);
    if t != [] {
      assert TrimLeft(t) == t;
      assert TrimRight(t) == t;
    }
  }

  // ---------------------------------------------------------------------------
  // Splitting on one separator character
  // ---------------------------------------------------------------------------

  function Count(s: string, c: char): nat
  {
    if s == [] then 0 else (if s[0] == c then 1 else 0) + Count(s[1..], c)
  }

  /** Go's `strings.Split(s, sep)` for a one-character separator: the pieces
      between the separators, one more piece than there are separators, none
      of them containing the separator; the empty string gives `[""]`. */
  function Split(s: string, sep: char): (r: seq<string>)
    ensures |r| == Count(s, sep) + 1
    ensures forall i :: 0 <= i < |r| ==> sep !in r[i]
  {
    if s == [] then [[]]
    else if s[0] == sep then [[]] + Split(s[1..], sep)
    else
      var rest := Split(s[1..], sep);
      [[s[0]] + rest[0]] + rest[1..]
  }

  /** The inverse of `Split`: the pieces glued back with the separator. */
  function Join(parts: seq<string>, sep: char): string
  {
    if |parts| == 0 then []
    else if |parts| == 1 then parts[0]
    else parts[0] + [sep] + Join(parts[1..], sep)
  }

  lemma {:induction false} JoinSplit(s: string, sep: char)
    ensures Join(Split(s, sep), sep) == s
  {
    if s == [] {
    } else if s[0] == sep {
      JoinSplit(s[1..], sep);
      assert s == [] + [sep] + s[1..];
    } else {
      var rest := Split(s[1..], sep);
      JoinSplit(s[1..], sep);
      if |rest| == 1 {
        assert s == [s[0]] + rest[0];
      } else {
        assert Join(rest, sep) == rest[0] + [sep] + Join(rest[1..], sep);
        var parts := [[s[0]] + rest[0]] + rest[1..];
        assert parts[1..] == rest[1..];
        assert s == [s[0]] + s[1..];
      }
    }
  }

  lemma {:induction false} SplitJoin(parts: seq<string>, sep: char)
    requires |parts| >= 1
    requires forall i :: 0 <= i < |parts| ==> sep !in parts[i]
    ensures Split(Join(parts, sep), sep) == parts
  {
    if |parts| == 1 {
      SplitNoSeparator(parts[0], sep);
    } else {
      SplitJoin(parts[1..], sep);
      SplitPrefix(parts[0], Join(parts[1..], sep), sep);
      assert [parts[0]] + parts[1..] == parts;
    }
  }

  /** A string without the separator splits into itself. */
  lemma {:induction false} SplitNoSeparator(s: string, sep: char)
    requires sep !in s
    ensures Split(s, sep) == [s]
  {
    if s != [] {
      assert sep !in s[1..] by { assert forall i :: 0 <= i < |s| - 1 ==> s[1..][i] == s[i + 1]; }
      SplitNoSeparator(s[1..], sep);
      assert s == [s[0]] + s[1..];
    }
  }

  lemma {:induction false} SplitPrefix(a: string, b: string, sep: char)
    requires sep !in a
    ensures Split(a + [sep] + b, sep) == [a] + Split(b, sep)
  {
    if a == [] {
      assert a + [sep] + b == [sep] + b;
      assert ([sep] + b)[1..] == b;
    } else {
      assert sep !in a[1..] by { assert forall i :: 0 <= i < |a| - 1 ==> a[1..][i] == a[i + 1]; }
      SplitPrefix(a[1..], b, sep);
      var s := a + [sep] + b;
      assert s[0] == a[0] && s[1..] == a[1..] + [sep] + b;
      assert [a[0]] + a[1..] == a;
    }
  }

  // ---------------------------------------------------------------------------
  // Cutting at the first separator
  // ---------------------------------------------------------------------------

  datatype CutResult = CutResult(before: string, after: string, found: bool)

  /** Go's `strings.Cut(s, sep)`: the text before the first `sep`, the text
      after it, and whether there was one; without a separator, `s` and "". */
  function Cut(s: string, sep: char): (r: CutResult)
    ensures sep !in r.before
    ensures r.found ==> s == r.before + [sep] + r.after
    ensures !r.found ==> r.before == s && r.after == [] && sep !in s
  {
    if s == [] then CutResult([], [], false)
    else if s[0] == sep then CutResult([], s[1..], true)
    else
      var rest := Cut(s[1..], sep);
      assert s == [s[0]] + s[1..];
      CutResult([s[0]] + rest.before, rest.after, rest.found)
  }

  /** `Cut` splits at the first separator: whatever follows it, separators
      included, is the second part. */
  lemma {:induction false} CutAt(a: string, b: string, sep: char)
    requires sep !in a
    ensures Cut(a + [sep] + b, sep) == CutResult(a, b, true)
  {
    if a != [] {
      assert (a + [sep] + b)[1..] == a[1..] + [sep] + b;
      CutAt(a[1..], b, sep);
    }
  }

  // ---------------------------------------------------------------------------
  // Decimal integers: strconv.Atoi and %d
  // ---------------------------------------------------------------------------

  const MaxUint64: int := 0xFFFF_FFFF_FFFF_FFFF
  const MaxInt64: int := 0x7FFF_FFFF_FFFF_FFFF
  const MinInt64: int := -0x8000_0000_0000_0000

  predicate IsDigit(c: char) { '0' <= c <= '9' }

  function DigitValue(c: char): nat
    requires IsDigit(c)
  {
    (c as int - '0' as int) as nat
  }

  function DigitChar(d: nat): (c: char)
    requires d < 10
    ensures IsDigit(c) && DigitValue(c) == d
  {
    ('0' as int + d) as char
  }

  predicate AllDigits(s: string)
  {
    forall i :: 0 <= i < |s| ==> IsDigit(s[i])
  }

  /** The value of a run of decimal digits read left to right onto `acc`. */
  function Horner(ds: string, acc: nat): nat
    requires AllDigits(ds)
  {
    if ds == [] then acc else Horner(ds[1..], acc * 10 + DigitValue(ds[0]))
  }

  /** What Go's unsigned decimal scan reports: a character that is not a
      digit, a value beyond 64 bits (detected at the digit where it happens,
      before the rest is looked at), or the value. */
  datatype Scan = NotANumber | OutOfRange | Value(n: nat)

  function ScanDigits(s: string, acc: nat): Scan
  {
    if s == [] then Value(acc)
    else if !IsDigit(s[0]) then NotANumber
    else if acc * 10 + DigitValue(s[0]) > MaxUint64 then OutOfRange
    else ScanDigits(s[1..], acc * 10 + DigitValue(s[0]))
  }

  /** The two results of Go's `strconv.Atoi` on a 64-bit platform: the value
      and whether there was no error. A syntax error yields 0; a value out of
      the 64-bit range yields the bound on that side. */
  datatype AtoiResult = AtoiResult(value: int, ok: bool)

  /** The digits of `s` once an optional leading sign is dropped. */
  function Body(s: string): string
  {
    if s != [] && (s[0] == '+' || s[0] == '-') then s[1..] else s
  }

  predicate Negative(s: string)
  {
    s != [] && s[0] == '-'
  }

  /** `strconv.Atoi` reports a syntax error: nothing after the sign, or a
      character that is not a digit before the value leaves 64 bits. */
  predicate SyntaxError(s: string)
  {
    Body(s) == [] || ScanDigits(Body(s), 0) == NotANumber
  }

  function Atoi(s: string): (r: AtoiResult)
    ensures MinInt64 <= r.value <= MaxInt64
  {
    if s == [] then AtoiResult(0, false)
    else
      var neg := s[0] == '-';
      var body := if s[0] == '+' || s[0] == '-' then s[1..] else s;
      if body == [] then AtoiResult(0, false)
      else match ScanDigits(body, 0)
        case NotANumber => AtoiResult(0, false)
        case OutOfRange => if neg then AtoiResult(MinInt64, false) else AtoiResult(MaxInt64, false)
        case Value(u) =>
          if !neg && u > MaxInt64 then AtoiResult(MaxInt64, false)
          else if neg && u > -MinInt64 then AtoiResult(MinInt64, false)
          else AtoiResult(if neg then -(u as int) else u as int, true)
  }

  /** The three outcomes of `Atoi`: a syntax error gives (0, false); any
      other error is an overflow and gives the 64-bit bound on the side of the
      sign; success gives the scanned digits with the sign applied. */
  lemma AtoiCases(s: string)
    ensures SyntaxError(s) ==> Atoi(s) == AtoiResult(0, false)
    ensures !SyntaxError(s) && !Atoi(s).ok ==> Atoi(s).value == if Negative(s) then MinInt64 else MaxInt64
    ensures Atoi(s).ok ==>
      && !SyntaxError(s) && ScanDigits(Body(s), 0).Value?
      && Atoi(s).value == if Negative(s) then -(ScanDigits(Body(s), 0).n as int) else ScanDigits(Body(s), 0).n
  {
  }

  /** A scan that yields a value read only digits, and the value is theirs. */
  lemma {:induction false} ScanValue(ds: string, acc: nat)
    requires ScanDigits(ds, acc).Value?
    ensures AllDigits(ds) && ScanDigits(ds, acc).n == Horner(ds, acc)
  {
    if ds != [] {
      ScanValue(ds[1..], acc * 10 + DigitValue(ds[0]));
    }
  }

  /** `Atoi` succeeds exactly on an optional sign followed by at least one
      digit and nothing else, whose value fits in 64 bits; the value is then
      the decimal reading of the digits with the sign applied. */
  lemma AtoiOk(s: string)
    ensures Atoi(s).ok <==>
      && Body(s) != [] && AllDigits(Body(s))
      && (if Negative(s) then Horner(Body(s), 0) <= -MinInt64 else Horner(Body(s), 0) <= MaxInt64)
    ensures Atoi(s).ok ==>
      && (IsDigit(s[0]) || s[0] == '+' || s[0] == '-')
      && Atoi(s).value == if Negative(s) then -(Horner(Body(s), 0) as int) else Horner(Body(s), 0)
  {
    var b := Body(s);
    if ScanDigits(b, 0).Value? {
      ScanValue(b, 0);
    }
    if b != [] && AllDigits(b) && Horner(b, 0) <= MaxUint64 {
      ScanHorner(b, 0);
    }
  }

  /** `%d` of a natural number. */
  function FormatNat(n: nat): (s: string)
    ensures |s| >= 1 && AllDigits(s)
  {
    if n < 10 then [DigitChar(n)] else FormatNat(n / 10) + [DigitChar(n % 10)]
  }

  /** `%d` of an integer. */
  function FormatInt(n: int): string
  {
    if n < 0 then "-" + FormatNat(-n) else FormatNat(n)
  }

  lemma {:induction false} HornerSnoc(ds: string, d: char, acc: nat)
    requires AllDigits(ds) && IsDigit(d)
    ensures AllDigits(ds + [d])
    ensures Horner(ds + [d], acc) == Horner(ds, acc) * 10 + DigitValue(d)
  {
    assert AllDigits(ds + [d]) by {
      forall i | 0 <= i < |ds + [d]| ensures IsDigit((ds + [d])[i]) {
        if i < |ds| { assert (ds + [d])[i] == ds[i]; }
      }
    }
    if ds != [] {
      assert (ds + [d])[1..] == ds[1..] + [d];
      HornerSnoc(ds[1..], d, acc * 10 + DigitValue(ds[0]));
    }
  }

  lemma {:induction false} HornerFormat(n: nat)
    ensures Horner(FormatNat(n), 0) == n
  {
    if n >= 10 {
      HornerFormat(n / 10);
      HornerSnoc(FormatNat(n / 10), DigitChar(n % 10), 0);
    }
  }

  lemma {:induction false} HornerAtLeast(ds: string, acc: nat)
    requires AllDigits(ds)
    ensures Horner(ds, acc) >= acc
  {
    if ds != [] {
      HornerAtLeast(ds[1..], acc * 10 + DigitValue(ds[0]));
    }
  }

  /** A digit run whose value fits in 64 bits scans to that value. */
  lemma {:induction false} ScanHorner(ds: string, acc: nat)
    requires AllDigits(ds) && Horner(ds, acc) <= MaxUint64
    ensures ScanDigits(ds, acc) == Value(Horner(ds, acc))
  {
    if ds != [] {
      var next := acc * 10 + DigitValue(ds[0]);
      HornerAtLeast(ds[1..], next);
      ScanHorner(ds[1..], next);
    }
  }

  /** A digit run whose value leaves 64 bits makes the scan report an
      overflow at the digit where it happens, whatever comes after. */
  lemma {:induction false} ScanOverflow(ds: string, rest: string, acc: nat)
    requires ds != [] && AllDigits(ds) && acc <= MaxUint64 && Horner(ds, acc) > MaxUint64
    ensures ScanDigits(ds + rest, acc) == OutOfRange
    decreases |ds|
  {
    var next := acc * 10 + DigitValue(ds[0]);
    assert (ds + rest)[0] == ds[0] && (ds + rest)[1..] == ds[1..] + rest;
    if next <= MaxUint64 {
      assert ds[1..] != [];
      ScanOverflow(ds[1..], rest, next);
    }
  }

  /** The digits of a number beyond 64 bits, followed by anything at all
      (junk included): `Atoi` clamps to MaxInt64 instead of reporting a
      syntax error. */
  lemma AtoiOverflowBeforeJunk(n: nat, rest: string)
    requires n > MaxUint64
    ensures Atoi(FormatNat(n) + rest) == AtoiResult(MaxInt64, false)
  {
    var ds := FormatNat(n);
    HornerFormat(n);
    ScanOverflow(ds, rest, 0);
    assert (ds + rest)[0] == ds[0];
    assert Body(ds + rest) == ds + rest;
  }

  /** Formatting a 64-bit integer with `%d` and reading it back with `Atoi`
      gives the number and no error. */
  lemma AtoiFormatInt(n: int)
    requires MinInt64 <= n <= MaxInt64
    ensures Atoi(FormatInt(n)) == AtoiResult(n, true)
  {
    var m: nat := if n < 0 then -n else n;
    var ds := FormatNat(m);
    HornerFormat(m);
    ScanHorner(ds, 0);
    if n < 0 {
      assert FormatInt(n)[1..] == ds;
    } else {
      assert ds[0] != '+' && ds[0] != '-';
    }
  }

  /** A rendered integer has no white space at its ends and contains none of
      the separators the rule syntax uses. */
  lemma FormatIntPlain(n: int)
    ensures TrimSpace(FormatInt(n)) == FormatInt(n)
    ensures ',' !in FormatInt(n) && '|' !in FormatInt(n)
  {
    var ds := FormatNat(if n < 0 then -n else n);
    var s := FormatInt(n);
    assert s == if n < 0 then "-" + ds else ds;
    assert forall i :: 0 <= i < |s| ==> s[i] == '-' || IsDigit(s[i]);
    TrimUntouched(s);
  }

  /** A string that neither starts nor ends with white space is its own
      trimming. */
  lemma TrimUntouched(s: string)
    requires s != [] && !IsSpace(s[0]) && !IsSpace(s[|s| - 1])
    ensures TrimSpace(s) == s
  {
    assert TrimLeft(s) == s;
  }

  /** A rendered integer never ends in white space. */
  lemma FormatIntEnds(n: int)
    ensures FormatInt(n) != [] && !IsSpace(FormatInt(n)[|FormatInt(n)| - 1])
  {
    var ds := FormatNat(if n < 0 then -n else n);
    assert FormatInt(n)[|FormatInt(n)| - 1] == ds[|ds| - 1];
  }
}
