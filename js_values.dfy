/** The handful of JavaScript built-ins the storefront relies on, stated over
    Dafny values: `undefined`, numbers with NaN and the infinities, `Number()`
    on strings, `String.prototype.trim`, `replace`, `Array.prototype.join`
    and `slice`, and the decimal text a template literal gives an integer. */
module JsValues {

  /** An optional value: `None` stands for JavaScript's `undefined`. */
  datatype Option<+T> = None | Some(value: T)

  /** A JavaScript number as far as the storefront can observe it: prices are
      reals, and the three non-finite values are kept apart because `===`
      treats them differently. */
  datatype Num = Finite(value: real) | PosInf | NegInf | NaN

  /** `a === b` on numbers: NaN is equal to nothing, not even to itself. */
  predicate StrictEq(a: Num, b: Num): (eq: bool)
    ensures eq ==> a == b
    ensures a.NaN? || b.NaN? ==> !eq
    ensures a == b && !a.NaN? ==> eq
  {
    a == b && !a.NaN?
  }

  lemma NaNNeverEqual(a: Num)
    ensures !StrictEq(NaN, a) && !StrictEq(a, NaN)
    ensures a != NaN ==> StrictEq(a, a)
  {
  }

  /** `Math.min` and `Math.max` on integers. */
  function Min(a: int, b: int): int { if a <= b then a else b }

  function Max(a: int, b: int): int { if a >= b then a else b }

  // ---------------------------------------------------------------- trim

  /** The characters `String.prototype.trim` removes: WhiteSpace and
      LineTerminator of ECMAScript (section 12.2 and 12.3 of ECMA-262). */
  predicate IsSpace(c: char)
  {
    c == '\t' || c == '\n' || c == '\U{000B}' || c == '\U{000C}' || c == '\r' || c == ' ' ||
    c == '\U{00A0}' || c == '\U{1680}' || ('\U{2000}' <= c <= '\U{200A}') ||
    c == '\U{2028}' || c == '\U{2029}' || c == '\U{202F}' || c == '\U{205F}' ||
    c == '\U{3000}' || c == '\U{FEFF}'
  }

  function TrimStart(s: string): (r: string)
    ensures |r| <= |s| && r == s[|s| - |r|..]
    ensures r == [] || !IsSpace(r[0])
  {
    if s != [] && IsSpace(s[0]) then TrimStart(s[1..]) else s
  }

  function TrimEnd(s: string): (r: string)
    ensures |r| <= |s| && r == s[..|r|]
    ensures r == [] || !IsSpace(r[|r| - 1])
  {
    if s != [] && IsSpace(s[|s| - 1]) then TrimEnd(s[..|s| - 1]) else s
  }

  /** `s.trim()`: the longest infix without leading or trailing white space. */
  function Trim(s: string): (r: string)
    ensures r == [] || (!IsSpace(r[0]) && !IsSpace(r[|r| - 1]))
  {
    TrimEnd(TrimStart(s))
  }

  /** What `TrimStart` drops is white space, and only that. */
  lemma {:induction false} TrimStartDropsSpace(s: string)
    ensures forall k :: 0 <= k < |s| - |TrimStart(s)| ==> IsSpace(s[k])
  {
    if s != [] && IsSpace(s[0]) {
      TrimStartDropsSpace(s[1..]);
      forall k | 1 <= k < |s| - |TrimStart(s)| ensures IsSpace(s[k]) {
        assert s[k] == s[1..][k - 1];
      }
    }
  }

  /** What `TrimEnd` drops is white space, and only that. */
  lemma {:induction false} TrimEndDropsSpace(s: string)
    ensures forall k :: |TrimEnd(s)| <= k < |s| ==> IsSpace(s[k])
  {
    if s != [] && IsSpace(s[|s| - 1]) {
      TrimEndDropsSpace(s[..|s| - 1]);
      forall k | |TrimEnd(s)| <= k < |s| - 1 ensures IsSpace(s[k]) {
        assert s[k] == s[..|s| - 1][k];
      }
    }
  }

  lemma {:induction false} TrimKeepsUntrimmed(s: string)
    requires s == [] || (!IsSpace(s[0]) && !IsSpace(s[|s| - 1]))
    ensures Trim(s) == s
  {
    assert TrimStart(s) == s;
    assert TrimEnd(s) == s;
  }

  // ---------------------------------------------------------------- digits

  predicate IsDigit(c: char)
  {
    '0' <= c <= '9'
  }

  lemma DigitNotSpace(c: char)
    requires IsDigit(c)
    ensures !IsSpace(c)
  {
  }

  /** Every character is an ASCII digit (the empty string included). */
  predicate IsDigits(s: string)
  {
    forall k :: 0 <= k < |s| ==> IsDigit(s[k])
  }

  /** The regular expression `/^\d+$/`: one or more ASCII digits and nothing else. */
  predicate IsDigitRun(s: string): (run: bool)
    ensures run ==> |s| >= 1 && '.' !in s && ',' !in s && '-' !in s
  {
    s != [] && IsDigits(s)
  }

  function DigitValue(c: char): (d: nat)
    requires IsDigit(c)
    ensures d < 10
  {
    (c as int) - ('0' as int)
  }

  function Pow10(n: nat): (p: nat)
    ensures p >= 1
  {
    if n == 0 then 1 else 10 * Pow10(n - 1)
  }

  /** The value of a string of decimal digits, most significant first. */
  function DigitsValue(s: string): (v: nat)
    requires IsDigits(s)
    ensures v < Pow10(|s|)
  {
    if s == [] then 0 else DigitsValue(s[..|s| - 1]) * 10 + DigitValue(s[|s| - 1])
  }

  lemma {:induction false} DigitsConcat(a: string, b: string)
    requires IsDigits(a) && IsDigits(b)
    ensures IsDigits(a + b)
  {
    forall k | 0 <= k < |a + b| ensures IsDigit((a + b)[k]) {
      if k < |a| { assert (a + b)[k] == a[k]; } else { assert (a + b)[k] == b[k - |a|]; }
    }
  }

  /** Appending a digit `d` to both sides of `v * p + w` scales by ten. */
  lemma {:induction false} ShiftByTen(v: int, p: int, w: int, d: int)
    ensures (v * p + w) * 10 + d == v * (10 * p) + (w * 10 + d)
  {
    assert (v * p) * 10 == v * (10 * p);
  }

  lemma {:induction false} DigitsValueConcat(a: string, b: string)
    requires IsDigits(a) && IsDigits(b)
    ensures IsDigits(a + b)
    ensures DigitsValue(a + b) == DigitsValue(a) * Pow10(|b|) + DigitsValue(b)
  {
    DigitsConcat(a, b);
    if b == [] {
      assert a + b == a;
    } else {
      var b', x := b[..|b| - 1], b[|b| - 1];
      assert IsDigits(b');
      DigitsConcat(a, b');
      assert (a + b)[..|a + b| - 1] == a + b';
      assert (a + b)[|a + b| - 1] == x;
      DigitsValueConcat(a, b');
      ShiftByTen(DigitsValue(a), Pow10(|b'|), DigitsValue(b'), DigitValue(x));
    }
  }

  // ---------------------------------------------------------------- search and replace

  /** `s.indexOf(c)`, with `None` for -1. */
  function FindFirst(s: string, c: char): (r: Option<nat>)
    ensures r.None? <==> c !in s
    ensures r.Some? ==> r.value < |s| && s[r.value] == c && c !in s[..r.value]
  {
    if s == [] then None
    else if s[0] == c then Some(0)
    else match FindFirst(s[1..], c)
      case None => None
      case Some(i) => Some(i + 1)
  }

  /** `s.replace(/c/g, "")`: every occurrence of `c` deleted, the rest kept in order. */
  function RemoveAll(s: string, c: char): (r: string)
    ensures c !in r
    ensures |r| <= |s|
    ensures c !in s ==> r == s
  {
    if s == [] then []
    else (if s[0] == c then [] else [s[0]]) + RemoveAll(s[1..], c)
  }

  lemma {:induction false} RemoveAllConcat(a: string, b: string, c: char)
    ensures RemoveAll(a + b, c) == RemoveAll(a, c) + RemoveAll(b, c)
  {
    if a != [] {
      var head: string := if a[0] == c then [] else [a[0]];
      assert (a + b)[0] == a[0];
      assert (a + b)[1..] == a[1..] + b;
      assert RemoveAll(a + b, c) == head + RemoveAll(a[1..] + b, c);
      RemoveAllConcat(a[1..], b, c);
      Associative(head, RemoveAll(a[1..], c), RemoveAll(b, c));
    } else {
      assert a + b == b;
    }
  }

  /** `s.replace(c, d)` with a one-character string pattern: only the first
      occurrence of `c` is replaced. */
  function ReplaceFirst(s: string, c: char, d: char): (r: string)
    ensures |r| == |s|
    ensures c !in s ==> r == s
    ensures c in s ==> exists i :: 0 <= i < |s| && s[i] == c && c !in s[..i] && r == s[..i] + [d] + s[i + 1..]
  {
    match FindFirst(s, c)
    case None => s
    case Some(i) => s[..i] + [d] + s[i + 1..]
  }

  /** An occurrence of `c` with none before it is the one `FindFirst` finds. */
  lemma {:induction false} FindFirstAt(s: string, c: char, i: nat)
    requires i < |s| && s[i] == c && c !in s[..i]
    ensures FindFirst(s, c) == Some(i)
  {
    assert s[i] == c;
  }

  /** The first `c` of `a + [c] + rest` is the one after `a` when `a` has none. */
  lemma {:induction false} FindFirstAfter(a: string, c: char, rest: string)
    requires c !in a
    ensures FindFirst(a + [c] + rest, c) == Some(|a|)
  {
    var s := a + [c] + rest;
    assert s[|a|] == c;
    assert forall j :: 0 <= j < |a| ==> s[j] == a[j];
    forall j | |a| < j <= |s| ensures c in s[..j] {
      assert s[..j][|a|] == c;
    }
  }

  lemma {:induction false} ReplaceFirstAfter(a: string, c: char, d: char, rest: string)
    requires c !in a
    ensures ReplaceFirst(a + [c] + rest, c, d) == a + [d] + rest
  {
    FindFirstAfter(a, c, rest);
    var s := a + [c] + rest;
    assert s[..|a|] == a;
    assert s[|a| + 1..] == rest;
  }

  lemma {:induction false} RemoveAllAround(a: string, c: char, rest: string)
    requires c !in a && c !in rest
    ensures RemoveAll(a + [c] + rest, c) == a + rest
  {
    var head := a + [c];
    RemoveAllConcat(a, [c], c);
    assert RemoveAll([c], c) == [] by { assert [c][1..] == []; }
    assert RemoveAll(head, c) == a by { assert a + [] == a; }
    RemoveAllConcat(head, rest, c);
    assert RemoveAll(head + rest, c) == a + rest;
  }

  // ---------------------------------------------------------------- Number()

  /** The value of `int "." frac` where each part is a (possibly empty) digit string. */
  function DecimalOf(int_part: string, frac: string): (v: real)
    requires IsDigits(int_part) && IsDigits(frac)
    ensures v >= DigitsValue(int_part) as real
  {
    var scale := Pow10(|frac|) as real;
    NonNegativeQuotient(DigitsValue(frac) as real, scale);
    DigitsValue(int_part) as real + DigitsValue(frac) as real / scale
  }

  lemma NonNegativeQuotient(x: real, y: real)
    requires x >= 0.0 && y > 0.0
    ensures x / y >= 0.0
  {
  }

  /** An unsigned decimal literal: digits, optionally one '.' and more digits,
      with at least one digit in all (`"5"`, `"5."`, `".5"`, `"5.25"`). */
  function UnsignedDecimal(u: string): (r: Option<real>)
    ensures IsDigitRun(u) ==> r == Some(DigitsValue(u) as real)
    ensures r.Some? ==> r.value >= 0.0
  {
    match FindFirst(u, '.')
    case None =>
      if IsDigitRun(u) then Some(DigitsValue(u) as real) else None
    case Some(i) =>
      assert !IsDigit(u[i]);
      var int_part, frac := u[..i], u[i + 1..];
      if (int_part == [] && frac == []) || !IsDigits(int_part) || !IsDigits(frac) then None
      else Some(DecimalOf(int_part, frac))
  }

  /** `Number(s)` on a string, over the decimal subset: surrounding white
      space is ignored, the empty string is 0, an optional sign, a decimal
      literal, or `Infinity`; anything else is NaN. */
  function ParseNumber(s: string): (r: Num)
    ensures Trim(s) == "" ==> r == Finite(0.0)
    ensures IsDigitRun(Trim(s)) ==> r == Finite(DigitsValue(Trim(s)) as real)
  {
    ParseTrimmed(Trim(s))
  }

  /** `Number()` once the surrounding white space is gone. */
  function ParseTrimmed(t: string): (r: Num)
    ensures t == "" ==> r == Finite(0.0)
    ensures IsDigitRun(t) ==> r == Finite(DigitsValue(t) as real)
  {
    if t == "" then Finite(0.0)
    else if t == "Infinity" || t == "+Infinity" then PosInf
    else if t == "-Infinity" then NegInf
    else
      var negative := t[0] == '-';
      var u := if t[0] == '-' || t[0] == '+' then t[1..] else t;
      match UnsignedDecimal(u)
      case Some(v) => Finite(if negative then -v else v)
      case None => NaN
  }

  lemma {:induction false} ParseDigitRun(d: string)
    requires IsDigitRun(d)
    ensures ParseNumber(d) == Finite(DigitsValue(d) as real)
  {
    TrimKeepsUntrimmed(d);
  }

  lemma {:induction false} DecimalIsUntrimmed(a: string, b: string)
    requires IsDigitRun(a) && IsDigits(b)
    ensures Trim(a + "." + b) == a + "." + b
  {
    var s := a + "." + b;
    assert s[0] == a[0] && s[|s| - 1] == (if b == [] then '.' else b[|b| - 1]);
    TrimKeepsUntrimmed(s);
  }

  lemma {:induction false} ParseTrimmedDecimal(a: string, b: string)
    requires IsDigitRun(a) && IsDigits(b)
    ensures ParseTrimmed(a + "." + b) == Finite(DecimalOf(a, b))
  {
    var s := a + "." + b;
    assert IsDigit(s[0]);
    assert s != "Infinity" && s != "+Infinity" && s != "-Infinity";
    assert FindFirst(s, '.') == Some(|a|) by {
      assert s[|a|] == '.';
      assert s[..|a|] == a;
    }
    assert s[..|a|] == a && s[|a| + 1..] == b;
  }

  /** `Number(a + "." + b)` for digit strings: the decimal reading. */
  lemma {:induction false} ParseDecimalPoint(a: string, b: string)
    requires IsDigitRun(a) && IsDigits(b)
    ensures ParseNumber(a + "." + b) == Finite(DecimalOf(a, b))
  {
    DecimalIsUntrimmed(a, b);
    ParseTrimmedDecimal(a, b);
  }

  // ---------------------------------------------------------------- numbers as text

  function DigitChar(d: nat): (c: char)
    requires d < 10
    ensures IsDigit(c) && DigitValue(c) == d
  {
    (('0' as int) + d) as char
  }

  /** The decimal text of a natural number, without leading zeros. */
  function NatToString(n: nat): (s: string)
    ensures IsDigitRun(s)
  {
    if n < 10 then [DigitChar(n)] else NatToString(n / 10) + [DigitChar(n % 10)]
  }

  /** `${n}` for an integer-valued number. */
  function IntToString(n: int): (s: string)
    ensures n >= 0 ==> IsDigitRun(s)
    ensures n < 0 ==> |s| >= 2 && s[0] == '-' && IsDigitRun(s[1..])
  {
    if n < 0 then "-" + NatToString(-n) else NatToString(n)
  }

  lemma {:induction false} NatToStringValue(n: nat)
    ensures DigitsValue(NatToString(n)) == n
  {
    if n >= 10 {
      var s := NatToString(n);
      NatToStringValue(n / 10);
      assert s[..|s| - 1] == NatToString(n / 10);
    }
  }

  lemma {:induction false} NegativeIsUntrimmed(d: string)
    requires IsDigitRun(d)
    ensures Trim("-" + d) == "-" + d
  {
    var s := "-" + d;
    assert s[|s| - 1] == d[|d| - 1];
    TrimKeepsUntrimmed(s);
  }

  lemma {:induction false} ParseTrimmedNegative(d: string)
    requires IsDigitRun(d)
    ensures ParseTrimmed("-" + d) == Finite(-(DigitsValue(d) as real))
  {
    var s := "-" + d;
    assert s[1..] == d;
    assert s != "-Infinity" by { assert s[1] == d[0]; assert IsDigit(d[0]); }
    assert FindFirst(d, '.') == None by { assert forall k :: 0 <= k < |d| ==> d[k] != '.'; }
  }

  /** Reading back the text of an integer with `Number()` gives the integer. */
  lemma {:induction false} IntToStringRoundTrip(n: int)
    ensures ParseNumber(IntToString(n)) == Finite(n as real)
  {
    if n >= 0 {
      NatRoundTrip(n);
    } else {
      NegativeRoundTrip(n);
    }
  }
  lemma {:induction false} NatRoundTrip(n: nat)
    ensures ParseNumber(IntToString(n)) == Finite(n as real)
  {
    NatToStringValue(n);
    ParseDigitRun(NatToString(n));
  }
  lemma {:induction false} NegativeRoundTrip(n: int)
    requires n < 0
    ensures ParseNumber(IntToString(n)) == Finite(n as real)
  {
    NatToStringValue(-n);
    SignedRoundTrip(n, NatToString(-n));
  }
  lemma {:induction false} SignedRoundTrip(n: int, d: string)
    requires n < 0 && IsDigitRun(d) && DigitsValue(d) == -n && IntToString(n) == "-" + d
    ensures ParseNumber(IntToString(n)) == Finite(n as real)
  {
    ParseNegativeRun(d);
  }
  lemma {:induction false} ParseNegativeRun(d: string)
    requires IsDigitRun(d)
    ensures ParseNumber("-" + d) == Finite(-(DigitsValue(d) as real))
  {
    NegativeIsUntrimmed(d);
    ParseTrimmedNegative(d);
  }

  // ---------------------------------------------------------------- join and split

  /** `lines.join(sep)` with a one-character separator. */
  function Join(lines: seq<string>, sep: char): (r: string)
    ensures lines == [] ==> r == ""
    ensures |lines| == 1 ==> r == lines[0]
  {
    if lines == [] then ""
    else if |lines| == 1 then lines[0]
    else lines[0] + [sep] + Join(lines[1..], sep)
  }

  /** `s.split(sep)` with a one-character separator. */
  function Split(s: string, sep: char): (r: seq<string>)
    ensures r != []
    decreases |s|
  {
    match FindFirst(s, sep)
    case None => [s]
    case Some(i) => [s[..i]] + Split(s[i + 1..], sep)
  }

  /** Splitting stops at the first separator. */
  lemma {:induction false} SplitAtFirst(a: string, sep: char, rest: string)
    requires sep !in a
    ensures Split(a + [sep] + rest, sep) == [a] + Split(rest, sep)
  {
    var s := a + [sep] + rest;
    FindFirstAfter(a, sep, rest);
    assert s[..|a|] == a && s[|a| + 1..] == rest;
  }

  /** Joining lines free of the separator can be undone by splitting. */
  lemma {:induction false} SplitJoin(lines: seq<string>, sep: char)
    requires lines != []
    requires forall k :: 0 <= k < |lines| ==> sep !in lines[k]
    ensures Split(Join(lines, sep), sep) == lines
  {
    if |lines| > 1 {
      var rest := lines[1..];
      assert Join(lines, sep) == lines[0] + [sep] + Join(rest, sep);
      SplitAtFirst(lines[0], sep, Join(rest, sep));
      assert forall k :: 0 <= k < |rest| ==> sep !in rest[k] by {
        forall k | 0 <= k < |rest| ensures sep !in rest[k] { assert rest[k] == lines[k + 1]; }
      }
      SplitJoin(rest, sep);
      assert [lines[0]] + rest == lines;
    }
  }

  // ---------------------------------------------------------------- sequences

  lemma Associative<T>(a: seq<T>, b: seq<T>, c: seq<T>)
    ensures a + b + c == a + (b + c)
  {
  }

  /** Taking out the item at `k > 0` of a list commutes with dropping the head. */
  lemma DropAtAfterHead<T>(s: seq<T>, k: nat)
    requires 0 < k < |s|
    ensures [s[0]] + (s[1..][..k - 1] + s[1..][k..]) == s[..k] + s[k + 1..]
  {
    assert [s[0]] + s[1..][..k - 1] == s[..k];
    assert s[1..][k..] == s[k + 1..];
  }

  // ---------------------------------------------------------------- slice

  /** How `slice` reads one of its bounds: negative counts from the end. */
  function SliceBound(i: int, n: nat): (b: nat)
    ensures b <= n
    ensures 0 <= i ==> b == if i < n then i else n
  {
    if i < 0 then (if n + i < 0 then 0 else n + i) else if i < n then i else n
  }

  /** `s.slice(start, end)`. */
  function Slice<T>(s: seq<T>, start: int, end: int): (r: seq<T>)
    ensures 0 <= start <= end ==> |r| <= end - start
    ensures 0 <= start <= end && end <= |s| ==> r == s[start..end]
    ensures 0 <= start && |s| <= start ==> r == []
  {
    var from, to := SliceBound(start, |s|), SliceBound(end, |s|);
    if from < to then s[from..to] else []
  }
}
