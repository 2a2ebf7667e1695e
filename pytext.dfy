/** The pieces of Python 2 string handling the programs rely on: str(n) for
    a natural number, str.split and str.join with a one-character separator,
    str.strip, slicing with Python's clamping, the "{:>Ns}" and "{:1.1s}"
    formats, str.lstrip('0'), "{:2X}", the test int() applies to its
    argument, and the two exceptions the programs can raise. */
module PyText {

  /** A value, or the exception Python raises instead of producing it. */
  datatype Outcome<T> = Ok(value: T) | IndexError | ValueError

  // ---------------------------------------------------------------------
  // Python 2 str(n) for n >= 0, and its inverse.

  function DigitChar(d: nat): char
    requires d < 10
  {
    "0123456789"[d]
  }

  predicate IsDigit(c: char)
  {
    '0' <= c <= '9'
  }

  function DigitValue(c: char): nat
    requires IsDigit(c)
  {
    (c as int) - ('0' as int)
  }

  /** str(n): the decimal digits of n, most significant first, no leading zero. */
  function NatToString(n: nat): (s: string)
    ensures |s| >= 1 && forall i :: 0 <= i < |s| ==> IsDigit(s[i])
    ensures |s| > 1 ==> s[0] != '0'
  {
    if n < 10 then [DigitChar(n)] else NatToString(n / 10) + [DigitChar(n % 10)]
  }

  /** The number a string of decimal digits denotes. */
  function DecimalValue(s: string): nat
    requires forall i :: 0 <= i < |s| ==> IsDigit(s[i])
  {
    if s == [] then 0 else DecimalValue(s[..|s| - 1]) * 10 + DigitValue(s[|s| - 1])
  }

  /** str(n) reads back as n: the printed counts and frequencies are exact. */
  lemma {:induction false} NatToStringRoundTrip(n: nat)
    ensures DecimalValue(NatToString(n)) == n
  {
    if n >= 10 {
      NatToStringRoundTrip(n / 10);
      var s := NatToString(n);
      assert s[..|s| - 1] == NatToString(n / 10);
    }
  }

  /** Distinct numbers print differently. */
  lemma NatToStringInjective(m: nat, n: nat)
    requires NatToString(m) == NatToString(n)
    ensures m == n
  {
    NatToStringRoundTrip(m);
    NatToStringRoundTrip(n);
  }

  // ---------------------------------------------------------------------
  // str.split(c) and c.join(parts) for a single-character separator.

  /** s.split(c): the pieces between occurrences of c; never an empty list. */
  function Split(s: string, c: char): (parts: seq<string>)
    ensures |parts| >= 1
    ensures forall k :: 0 <= k < |parts| ==> c !in parts[k]
  {
    if s == [] then [[]]
    else
      var rest := Split(s[1..], c);
      if s[0] == c then [[]] + rest
      else [[s[0]] + rest[0]] + rest[1..]
  }

  /** c.join(parts). */
  function Join(parts: seq<string>, c: char): string
    requires |parts| >= 1
  {
    if |parts| == 1 then parts[0] else parts[0] + [c] + Join(parts[1..], c)
  }

  /** Splitting and joining again gives back the original text. */
  lemma {:induction false} JoinSplit(s: string, c: char)
    ensures Join(Split(s, c), c) == s
  {
    if s != [] {
      JoinSplit(s[1..], c);
      var rest := Split(s[1..], c);
      if s[0] == c {
        assert Split(s, c)[1..] == rest;
      } else if |rest| == 1 {
        assert Join(Split(s, c), c) == [s[0]] + rest[0];
      } else {
        assert Split(s, c)[1..] == rest[1..];
        assert Join(rest, c) == rest[0] + [c] + Join(rest[1..], c);
      }
    }
  }

  /** Joining pieces that do not contain the separator and splitting again
      gives back the pieces. */
  lemma {:induction false} SplitJoin(parts: seq<string>, c: char)
    requires |parts| >= 1
    requires forall k :: 0 <= k < |parts| ==> c !in parts[k]
    ensures Split(Join(parts, c), c) == parts
  {
    if |parts| == 1 {
      SplitPlain(parts[0], c, []);
    } else {
      SplitJoin(parts[1..], c);
      SplitPlain(parts[0], c, Join(parts[1..], c));
      assert [parts[0]] + parts[1..] == parts;
    }
  }

  /** A piece without the separator, alone or followed by it and more text,
      splits off as exactly that piece. */
  lemma {:induction false} SplitPlain(w: string, c: char, tail: string)
    requires c !in w
    ensures Split(w, c) == [w]
    ensures Split(w + [c] + tail, c) == [w] + Split(tail, c)
  {
    if w == [] {
      assert ([c] + tail)[1..] == tail;
      assert w + [c] + tail == [c] + tail;
    } else {
      SplitPlain(w[1..], c, tail);
      assert Split(w[1..], c)[1..] == [];
      assert [w[0]] + w[1..] == w;
      assert (w + [c] + tail)[1..] == w[1..] + [c] + tail;
    }
  }

  // ---------------------------------------------------------------------
  // str.strip() and blank tests.

  /** The characters Python 2's str.strip() removes. */
  predicate IsSpace(ch: char)
  {
    ch == ' ' || ch == '\t' || ch == '\n' || ch == '\r' || ch == 11 as char || ch == 12 as char
  }

  /** s.lstrip() */
  function LStrip(s: string): string
  {
    if s == [] || !IsSpace(s[0]) then s else LStrip(s[1..])
  }

  /** s.rstrip() */
  function RStrip(s: string): string
  {
    if s == [] || !IsSpace(s[|s| - 1]) then s else RStrip(s[..|s| - 1])
  }

  /** s.strip() */
  function Strip(s: string): string
  {
    RStrip(LStrip(s))
  }

  /** s.strip() == "" exactly when every character of s is white space. */
  lemma {:induction false} StripEmptyIffBlank(s: string)
    ensures Strip(s) == [] <==> forall i :: 0 <= i < |s| ==> IsSpace(s[i])
  {
    if s != [] {
      if IsSpace(s[0]) {
        StripEmptyIffBlank(s[1..]);
        assert forall i :: 1 <= i < |s| ==> s[i] == s[1..][i - 1];
      } else {
        assert LStrip(s) == s;
        RStripKeepsFirst(s);
      }
    }
  }

  lemma {:induction false} RStripKeepsFirst(s: string)
    requires s != [] && !IsSpace(s[0])
    ensures RStrip(s) != []
  {
    if IsSpace(s[|s| - 1]) {
      RStripKeepsFirst(s[..|s| - 1]);
    }
  }

  // ---------------------------------------------------------------------
  // Slicing and formatting.

  /** s[i:j] for 0 <= i <= j: both ends clamp to the length. */
  function Slice(s: string, i: nat, j: nat): (r: string)
    requires i <= j
    ensures |r| == (if j <= |s| then j else |s|) - (if i <= |s| then i else |s|)
    ensures j <= |s| ==> r == s[i..j]
  {
    var a := if i <= |s| then i else |s|;
    var b := if j <= |s| then j else |s|;
    s[a..b]
  }

  /** s[i:] for 0 <= i. */
  function SliceFrom<T>(s: seq<T>, i: nat): (r: seq<T>)
    ensures |r| == (if i <= |s| then |s| - i else 0)
    ensures forall k :: 0 <= k < |r| ==> r[k] == s[i + k]
  {
    if i <= |s| then s[i..] else []
  }

  /** s[:-k] for k >= 1: all but the last k characters, or "" when s is
      shorter. */
  function DropLast(s: string, k: nat): (r: string)
    ensures |r| == (if |s| >= k then |s| - k else 0)
    ensures r == s[..|r|]
  {
    if |s| >= k then s[..|s| - k] else []
  }

  function Spaces(n: nat): (r: string)
    ensures |r| == n && forall i :: 0 <= i < n ==> r[i] == ' '
  {
    seq(n, i => ' ')
  }

  /** "{:>Ns}".format(s): right-justified in width N with spaces; never truncates. */
  function RJust(s: string, width: nat): (r: string)
    ensures |r| == (if |s| < width then width else |s|)
  {
    if |s| < width then Spaces(width - |s|) + s else s
  }

  /** The right-justified text ends with s, after nothing but spaces. */
  lemma RJustParts(s: string, width: nat)
    ensures var r := RJust(s, width);
      r[|r| - |s|..] == s && forall i :: 0 <= i < |r| - |s| ==> r[i] == ' '
  {
  }

  /** "{:1.1s}".format(s): at most one character (precision 1), padded on the
      right to width 1. */
  function Fmt1(s: string): (r: string)
    ensures |r| == 1
    ensures s != [] ==> r[0] == s[0]
    ensures s == [] ==> r == " "
  {
    if s == [] then " " else [s[0]]
  }

  function HexDigit(d: nat): char
    requires d < 16
  {
    "0123456789ABCDEF"[d]
  }

  /** "{:2X}".format(n) for 0 <= n < 256: upper-case hexadecimal, right-justified
      in width 2 with a space. */
  function Hex2(n: nat): (r: string)
    requires n < 256
    ensures |r| == 2
    ensures r[1] == HexDigit(n % 16)
    ensures r[0] == (if n < 16 then ' ' else HexDigit(n / 16))
  {
    if n < 16 then [' ', HexDigit(n)] else [HexDigit(n / 16), HexDigit(n % 16)]
  }

  /** int(s) on a Python 2 str succeeds on s exactly when s, stripped of
      white space, is an optional sign, then optional white space, then one
      or more decimal digits: the sign is read before the digit scan, which
      skips white space again. */
  predicate IsIntText(s: string)
  {
    var t := Strip(s);
    var digits := if t != [] && (t[0] == '+' || t[0] == '-') then LStrip(t[1..]) else t;
    digits != [] && forall i :: 0 <= i < |digits| ==> IsDigit(digits[i])
  }

  /** White space may follow the sign; a sign alone, a sign followed only
      by white space, and the empty text are rejected. */
  lemma IntTextSignSpace()
    ensures IsIntText("+ 3")
    ensures IsIntText(" - 5 ")
    ensures IsIntText("-07")
    ensures !IsIntText("+")
    ensures !IsIntText("+ ")
    ensures !IsIntText("")
  {
    assert LStrip("+ 3") == "+ 3" && RStrip("+ 3") == "+ 3" && LStrip(" 3") == "3";
    assert LStrip(" - 5 ") == "- 5 " && RStrip("- 5 ") == "- 5" && LStrip(" 5") == "5";
    assert LStrip("-07") == "-07" && RStrip("-07") == "-07" && LStrip("07") == "07";
    assert LStrip("+") == "+" && RStrip("+") == "+";
    assert LStrip("+ ") == "+ " && RStrip("+ ") == "+" && LStrip("") == "";
    assert "+ 3"[1..] == " 3" && "- 5"[1..] == " 5" && "-07"[1..] == "07";
    assert IsDigit("3"[0]) && IsDigit("5"[0]) && IsDigit("07"[0]) && IsDigit("07"[1]);
  }
  // ---------------------------------------------------------------------
  // float(s), as far as whether it raises.

  /** Where a left-to-right scan of a decimal number stands: before
      anything, after a '.' with no digit yet, in the whole part, in the
      fraction, after 'e' or 'E', after the exponent's sign, in the
      exponent's digits, or past a character that cannot continue it. */
  datatype ScanState = Start | Point | Whole | Fraction | Exponent | ExponentSign | ExponentDigits | Reject

  function NextState(q: ScanState, c: char): ScanState
  {
    match q
    case Start => if IsDigit(c) then Whole else if c == '.' then Point else Reject
    case Point => if IsDigit(c) then Fraction else Reject
    case Whole => if IsDigit(c) then Whole else if c == '.' then Fraction else if c == 'e' || c == 'E' then Exponent else Reject
    case Fraction => if IsDigit(c) then Fraction else if c == 'e' || c == 'E' then Exponent else Reject
    case Exponent => if IsDigit(c) then ExponentDigits else if c == '+' || c == '-' then ExponentSign else Reject
    case ExponentSign => if IsDigit(c) then ExponentDigits else Reject
    case ExponentDigits => if IsDigit(c) then ExponentDigits else Reject
    case Reject => Reject
  }

  function Scan(q: ScanState, s: string): ScanState
    decreases s
  {
    if s == [] then q else Scan(NextState(q, s[0]), s[1..])
  }

  /** Digits with at most one '.' and at least one digit, then optionally
      'e' or 'E', an optional sign and one or more digits. */
  predicate IsDecimalText(s: string)
  {
    var q := Scan(Start, s);
    q == Whole || q == Fraction || q == ExponentDigits
  }

  function LowerChar(c: char): char
  {
    if 'A' <= c <= 'Z' then (c as int + 32) as char else c
  }

  /** s is the lower-case word w in any mix of cases. */
  predicate IsWordInAnyCase(s: string, w: string)
  {
    |s| == |w| && (s == [] || (LowerChar(s[0]) == w[0] && IsWordInAnyCase(s[1..], w[1..])))
  }

  /** An optional sign followed by the rest. */
  function Unsigned(s: string): string
  {
    if s != [] && (s[0] == '+' || s[0] == '-') then s[1..] else s
  }

  /** float(s) succeeds on a Python 2 str s exactly when s, stripped of
      white space, is an optional sign followed by a decimal number or by
      "inf", "infinity" or "nan" in any case. */
  predicate IsFloatText(s: string)
  {
    IsFloatLiteral(Strip(s))
  }

  /** What float() accepts once white space is stripped. */
  predicate IsFloatLiteral(t: string)
  {
    var body := Unsigned(t);
    IsWordInAnyCase(body, "inf") || IsWordInAnyCase(body, "infinity") || IsWordInAnyCase(body, "nan")
    || IsDecimalText(body)
  }

  /** float() rejects a blank text. */
  lemma FloatNotBlank(s: string)
    requires IsFloatText(s)
    ensures Strip(s) != []
  {
  }

  /** Leading spaces do not change what lstrip() leaves. */
  lemma {:induction false} LStripSpaces(n: nat, s: string)
    ensures LStrip(Spaces(n) + s) == LStrip(s)
  {
    if n > 0 {
      var x := Spaces(n) + s;
      assert x[0] == ' ' && x[1..] == Spaces(n - 1) + s;
      LStripSpaces(n - 1, s);
    } else {
      assert Spaces(n) + s == s;
    }
  }

  /** Right-justifying a number text does not change whether float() accepts it. */
  lemma RJustFloat(s: string, width: nat)
    ensures IsFloatText(RJust(s, width)) <==> IsFloatText(s)
  {
    if |s| < width {
      assert RJust(s, width) == Spaces(width - |s|) + s;
      LStripSpaces(width - |s|, s);
      assert Strip(RJust(s, width)) == Strip(s);
    }
  }
}
