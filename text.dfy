/** Line and string handling shared by both readers: the cursor over a file's
    lines, Python's whitespace stripping and splitting, and the decimal
    syntax the model accepts where the source calls `int()` and `float()`. */
module Text {
  import opened Wrappers

  /** The line at cursor position `pos`. Past the end of the file it is "",
      which is what `readline()` returns there. */
  function LineAt(lines: seq<string>, pos: nat): string
  {
    if pos < |lines| then lines[pos] else ""
  }

  function StartsWith(s: string, prefix: string): bool
  {
    |prefix| <= |s| && s[..|prefix|] == prefix
  }

  /** Python's `str.isspace()` restricted to ASCII: space, \t, \n, \v, \f, \r
      and the four separators 0x1C-0x1F. */
  predicate IsWhitespace(c: char)
  {
    var n := c as int;
    n == 32 || 9 <= n <= 13 || 28 <= n <= 31
  }

  /** `s.rstrip()`: whitespace cut off the end. */
  function StripRight(s: string): string
    decreases |s|
  {
    if |s| > 0 && IsWhitespace(s[|s| - 1]) then StripRight(s[..|s| - 1]) else s
  }

  /** What `rstrip` leaves: the longest prefix of `s` not ending in
      whitespace, with only whitespace cut off after it. */
  lemma {:induction false} StripRightMeaning(s: string)
    ensures StripRight(s) <= s
    ensures |StripRight(s)| == 0 || !IsWhitespace(StripRight(s)[|StripRight(s)| - 1])
    ensures forall i :: |StripRight(s)| <= i < |s| ==> IsWhitespace(s[i])
    decreases |s|
  {
    if |s| > 0 && IsWhitespace(s[|s| - 1]) {
      StripRightMeaning(s[..|s| - 1]);
    }
  }

  /** `s.lstrip()`: whitespace cut off the start. */
  function StripLeft(s: string): string
    decreases |s|
  {
    if |s| > 0 && IsWhitespace(s[0]) then StripLeft(s[1..]) else s
  }

  /** What `lstrip` leaves: the longest suffix of `s` not starting with
      whitespace, with only whitespace cut off before it. */
  lemma {:induction false} StripLeftMeaning(s: string)
    ensures |StripLeft(s)| <= |s| && StripLeft(s) == s[|s| - |StripLeft(s)|..]
    ensures |StripLeft(s)| == 0 || !IsWhitespace(StripLeft(s)[0])
    ensures forall i :: 0 <= i < |s| - |StripLeft(s)| ==> IsWhitespace(s[i])
    decreases |s|
  {
    if |s| > 0 && IsWhitespace(s[0]) {
      StripLeftMeaning(s[1..]);
    }
  }

  /** `s.strip()` */
  function Strip(s: string): string
  {
    StripLeft(StripRight(s))
  }

  /** `s.replace(" ", "")`: the characters of `s` other than spaces, in order. */
  function RemoveSpaces(s: string): string
    decreases |s|
  {
    if s == [] then [] else (if s[0] == ' ' then [] else [s[0]]) + RemoveSpaces(s[1..])
  }

  /** No space survives `replace`, and a text without spaces is left as it
      is. */
  lemma {:induction false} RemoveSpacesMeaning(s: string)
    ensures ' ' !in RemoveSpaces(s)
    ensures ' ' !in s ==> RemoveSpaces(s) == s
    decreases |s|
  {
    if s != [] {
      RemoveSpacesMeaning(s[1..]);
    }
  }

  /** A single character survives `replace` exactly when it is not a
      space; with RemoveSpacesAppend, every other character is kept, in
      order. */
  lemma RemoveSpacesChar(c: char)
    ensures RemoveSpaces([c]) == if c == ' ' then [] else [c]
  {
    assert [c][1..] == [];
  }

  /** `replace` works on the two parts of a text separately. */
  lemma {:induction false} RemoveSpacesAppend(a: string, b: string)
    ensures RemoveSpaces(a + b) == RemoveSpaces(a) + RemoveSpaces(b)
    decreases |a|
  {
    if a != [] {
      assert (a + b)[1..] == a[1..] + b;
      RemoveSpacesAppend(a[1..], b);
    } else {
      assert a + b == b;
    }
  }

  /** The index of the first `c` in `s`, or `|s|` when `s` holds none. */
  function IndexOf(s: string, c: char): (i: nat)
    ensures i <= |s|
    ensures i < |s| ==> s[i] == c
    ensures forall j :: 0 <= j < i ==> s[j] != c
    decreases |s|
  {
    if s == [] || s[0] == c then 0 else 1 + IndexOf(s[1..], c)
  }

  /** `s.split(" ", 1)[0]`: the text before the first space, all of `s` when
      it holds none. */
  function SplitName(s: string): (r: string)
    ensures r <= s && ' ' !in r
    ensures |r| < |s| ==> s[|r|] == ' '
  {
    s[..IndexOf(s, ' ')]
  }

  /** `s.split(sep)[1]`: the text between the first and the second `sep` (or
      the end); `None` where Python raises `IndexError` because `sep` does
      not occur. */
  function SecondField(s: string, sep: char): (r: Option<string>)
    ensures r.None? <==> sep !in s
    ensures r.Some? ==> sep !in r.value && |r.value| < |s|
    ensures r.Some? ==>
      var rest := s[IndexOf(s, sep) + 1..];
      && r.value <= rest
      && (|r.value| == |rest| || rest[|r.value|] == sep)
  {
    var i := IndexOf(s, sep);
    if i == |s| then None
    else
      var rest := s[i + 1..];
      Some(rest[..IndexOf(rest, sep)])
  }

  lemma SecondFieldOfJoin(a: string, sep: char, b: string)
    requires sep !in a && sep !in b
    ensures SecondField(a + [sep] + b, sep) == Some(b)
  {
    var s := a + [sep] + b;
    assert s[|a|] == sep;
    assert IndexOf(s, sep) == |a|;
    assert s[|a| + 1..] == b;
    assert IndexOf(b, sep) == |b|;
    assert b[..|b|] == b;
  }

  predicate IsDigit(c: char)
  {
    '0' <= c <= '9'
  }

  predicate AllDigits(s: string)
  {
    forall i :: 0 <= i < |s| ==> IsDigit(s[i])
  }

  /** The integer syntax the model accepts: an optional sign followed by one
      or more ASCII decimal digits. */
  predicate IsIntText(s: string)
  {
    var digits := if |s| > 0 && (s[0] == '-' || s[0] == '+') then s[1..] else s;
    |digits| > 0 && AllDigits(digits)
  }

  function DigitValue(c: char): nat
    requires IsDigit(c)
  {
    (c as int) - ('0' as int)
  }

  function DigitsValue(s: string): nat
    requires AllDigits(s)
    decreases |s|
  {
    if s == [] then 0 else DigitsValue(s[..|s| - 1]) * 10 + DigitValue(s[|s| - 1])
  }

  /** The value of a run of ASCII digits, most significant first; `None` when
      some character is not a digit. The empty run is worth 0. */
  function Digits(s: string): (r: Option<nat>)
    decreases |s|
  {
    if s == [] then Some(0)
    else
      match Digits(s[..|s| - 1])
      case None => None
      case Some(v) => if IsDigit(s[|s| - 1]) then Some(v * 10 + DigitValue(s[|s| - 1])) else None
  }

  lemma {:induction false} DigitsMeaning(s: string)
    ensures Digits(s).Some? <==> AllDigits(s)
    ensures Digits(s).Some? ==> Digits(s).value == DigitsValue(s)
    decreases |s|
  {
    if s != [] {
      var init := s[..|s| - 1];
      DigitsMeaning(init);
      assert forall i :: 0 <= i < |init| ==> init[i] == s[i];
    }
  }

  /** `int(s)`; `None` where Python raises `ValueError`. What it accepts and
      yields is stated by ParseIntMeaning. */
  function ParseInt(s: string): Option<int>
  {
    var signed := |s| > 0 && (s[0] == '-' || s[0] == '+');
    var digits := if signed then s[1..] else s;
    if digits == [] then None
    else
      match Digits(digits)
      case None => None
      case Some(v) => if signed && s[0] == '-' then Some(-(v as int)) else Some(v)
  }

  /** `int(s)` succeeds exactly on an optional sign followed by one or more
      digits, and yields their value, negated after a '-'. */
  lemma ParseIntMeaning(s: string)
    ensures ParseInt(s).Some? <==> IsIntText(s)
    ensures IsIntText(s) ==>
      var neg := s[0] == '-';
      var digits := if s[0] == '-' || s[0] == '+' then s[1..] else s;
      ParseInt(s).value == if neg then -(DigitsValue(digits) as int) else DigitsValue(digits)
  {
    var signed := |s| > 0 && (s[0] == '-' || s[0] == '+');
    DigitsMeaning(if signed then s[1..] else s);
  }

  function DigitChar(d: nat): (c: char)
    requires d < 10
    ensures IsDigit(c) && DigitValue(c) == d
  {
    (('0' as int) + d) as char
  }

  /** The decimal spelling of `n`, most significant digit first. */
  function NatToString(n: nat): (r: string)
    ensures |r| > 0 && AllDigits(r)
    decreases n
  {
    if n < 10 then [DigitChar(n)] else NatToString(n / 10) + [DigitChar(n % 10)]
  }

  /** `str(i)` */
  function IntToString(i: int): string
  {
    if i < 0 then "-" + NatToString(-i) else NatToString(i)
  }

  lemma {:induction false} DigitsValueOfNatToString(n: nat)
    ensures DigitsValue(NatToString(n)) == n
    decreases n
  {
    if n >= 10 {
      DigitsValueOfNatToString(n / 10);
      var s := NatToString(n / 10) + [DigitChar(n % 10)];
      assert s[..|s| - 1] == NatToString(n / 10);
    }
  }

  /** Printing an integer and parsing it back yields the same integer. */
  lemma ParseIntOfIntToString(i: int)
    ensures ParseInt(IntToString(i)) == Some(i)
  {
    ParseIntMeaning(IntToString(i));
    if i < 0 {
      DigitsValueOfNatToString(-i);
      assert IntToString(i)[1..] == NatToString(-i);
    } else {
      DigitsValueOfNatToString(i);
      assert IsDigit(NatToString(i)[0]);
    }
  }

  /** States of a left-to-right scan of a floating-point spelling: the
      decimal forms, and the words "inf", "infinity" and "nan" letter by
      letter (`InfN` has read "in", `InfI` has read "infi", and so on). */
  datatype FloatScan =
    | Start | Signed | IntPart | DotFirst | FracPart | ExpStart | ExpSign | ExpPart
    | InfI | InfN | Inf | InfI2 | InfN2 | InfI3 | InfT | Infinity
    | NanN | NanA | Nan
    | Reject

  /** The scan after reading `c`; letters are read in either case. */
  function FloatStep(st: FloatScan, c: char): FloatScan
  {
    var sign := c == '+' || c == '-';
    var exp := c == 'e' || c == 'E';
    var l := ToLowerAscii(c);
    match st
    case Start =>
      if sign then Signed else if IsDigit(c) then IntPart else if c == '.' then DotFirst
      else if l == 'i' then InfI else if l == 'n' then NanN else Reject
    case Signed =>
      if IsDigit(c) then IntPart else if c == '.' then DotFirst
      else if l == 'i' then InfI else if l == 'n' then NanN else Reject
    case IntPart => if IsDigit(c) then IntPart else if c == '.' then FracPart else if exp then ExpStart else Reject
    case DotFirst => if IsDigit(c) then FracPart else Reject
    case FracPart => if IsDigit(c) then FracPart else if exp then ExpStart else Reject
    case ExpStart => if sign then ExpSign else if IsDigit(c) then ExpPart else Reject
    case ExpSign => if IsDigit(c) then ExpPart else Reject
    case ExpPart => if IsDigit(c) then ExpPart else Reject
    case InfI => if l == 'n' then InfN else Reject
    case InfN => if l == 'f' then Inf else Reject
    case Inf => if l == 'i' then InfI2 else Reject
    case InfI2 => if l == 'n' then InfN2 else Reject
    case InfN2 => if l == 'i' then InfI3 else Reject
    case InfI3 => if l == 't' then InfT else Reject
    case InfT => if l == 'y' then Infinity else Reject
    case Infinity => Reject
    case NanN => if l == 'a' then NanA else Reject
    case NanA => if l == 'n' then Nan else Reject
    case Nan => Reject
    case Reject => Reject
  }

  /** The scan of `s` from state `st`. */
  function ScanFloat(s: string, st: FloatScan): FloatScan
    decreases |s|
  {
    if s == [] then st else ScanFloat(s[1..], FloatStep(st, s[0]))
  }

  function ToLowerAscii(c: char): char
  {
    if 'A' <= c <= 'Z' then (c as int + 32) as char else c
  }

  /** The states in which a complete spelling has been read. */
  predicate Accepting(st: FloatScan)
  {
    st.IntPart? || st.FracPart? || st.ExpPart? || st.Inf? || st.Infinity? || st.Nan?
  }

  /** The floating-point syntax the model accepts where the source calls
      `float()`: an optional sign, then either digits with at most one '.'
      (at least one digit) and an optional exponent ('e' or 'E', an optional
      sign, digits), or one of "inf", "infinity" and "nan" in any letter
      case. */
  predicate IsFloatText(s: string)
  {
    Accepting(ScanFloat(s, Start))
  }

  /** Every integer spelling is a floating-point spelling, and the empty line
      is neither. */
  lemma IntTextIsFloatText(s: string)
    ensures IsIntText(s) ==> IsFloatText(s)
    ensures !IsIntText("") && !IsFloatText("")
  {
    if IsIntText(s) {
      var digits := if s[0] == '-' || s[0] == '+' then s[1..] else s;
      var st := if s[0] == '-' || s[0] == '+' then Signed else Start;
      ScanDigits(digits, st);
      assert s == [s[0]] + s[1..];
    }
  }

  lemma {:induction false} ScanDigits(d: string, st: FloatScan)
    requires |d| > 0 && AllDigits(d)
    requires st == Start || st == Signed || st == IntPart
    ensures ScanFloat(d, st) == IntPart
    decreases |d|
  {
    if |d| > 1 {
      ScanDigits(d[1..], IntPart);
    }
  }

}
