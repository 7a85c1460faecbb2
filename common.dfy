/**
  Values shared by every part of the model: the Option and Result wrappers,
  the Python exception kinds the core raises or lets through, and the few
  string operations of Python's `str` that the core relies on (`in`,
  `upper`, `lower`, `strip`, `" ".join`, `str(int)`, `int(str)`, `zfill`).

  Case mapping, whitespace and digits follow Python for ASCII text, and
  `repr` escapes what Python escapes below U+0100. Beyond that range the
  model keeps every character as it is: Python's Unicode case mapping, the
  non-ASCII whitespace (U+0085, U+00A0, U+2000 and others), the non-ASCII
  digits `int()` accepts and the non-printable characters from U+0100 on
  that `repr` escapes are not modelled.
 */
module Common {

  datatype Option<+T> = None | Some(value: T) {
    function GetOr(default: T): T {
      match this
      case Some(v) => v
      case None => default
    }
  }

  /** The Python exception kinds that reach the caller of the core. */
  datatype Error =
    | RuntimeError(msg: string)
    | TimeoutError(msg: string)
    | ValueError(msg: string)
    | KeyError(msg: string)
    | TypeError(msg: string)
    | IndexError(msg: string)
    | AttributeError(msg: string)

  /** A value, or the exception raised instead of producing it. */
  datatype Result<+T> = Ok(value: T) | Err(error: Error)

  // ---------------------------------------------------------------------
  // Character classes (ASCII)
  // ---------------------------------------------------------------------

  predicate IsDigit(c: char) { '0' <= c <= '9' }

  /** Python's `\w` restricted to ASCII. */
  predicate IsWordChar(c: char) {
    'a' <= c <= 'z' || 'A' <= c <= 'Z' || IsDigit(c) || c == '_'
  }

  /**
    ASCII whitespace as `str.isspace()`, `str.strip()` and `int()` see it:
    \t, \n, \v, \f, \r, the separators U+001C to U+001F, and space.
   */
  predicate IsSpace(c: char) { '\t' <= c <= '\r' || 0x1c <= c as int <= 0x20 }

  predicate AllDigits(s: string) { forall i :: 0 <= i < |s| ==> IsDigit(s[i]) }

  function Upper(c: char): (u: char)
    ensures !('a' <= u <= 'z')
  {
    if 'a' <= c <= 'z' then (c as int - 32) as char else c
  }

  function Lower(c: char): (l: char)
    ensures !('A' <= l <= 'Z')
  {
    if 'A' <= c <= 'Z' then (c as int + 32) as char else c
  }

  /** `s.upper()` */
  function UpperStr(s: string): (r: string)
    ensures |r| == |s|
    ensures forall i :: 0 <= i < |s| ==> r[i] == Upper(s[i])
  {
    seq(|s|, i requires 0 <= i < |s| => Upper(s[i]))
  }

  /** `s.lower()` */
  function LowerStr(s: string): (r: string)
    ensures |r| == |s|
    ensures forall i :: 0 <= i < |s| ==> r[i] == Lower(s[i])
  {
    seq(|s|, i requires 0 <= i < |s| => Lower(s[i]))
  }

  /** Upper-casing forgets the case the string was written in. */
  lemma UpperOfLower(s: string)
    ensures UpperStr(LowerStr(s)) == UpperStr(s)
  {
    assert forall i :: 0 <= i < |s| ==> Upper(Lower(s[i])) == Upper(s[i]);
  }

  lemma UpperIdempotent(s: string)
    ensures UpperStr(UpperStr(s)) == UpperStr(s)
  {
  }

  // ---------------------------------------------------------------------
  // Substrings: Python's `p in s` on strings
  // ---------------------------------------------------------------------

  predicate IsPrefix(p: string, s: string) { |p| <= |s| && s[..|p|] == p }

  /** `p in s`: `p` occurs somewhere in `s` (the empty string occurs everywhere). */
  predicate Contains(s: string, p: string)
    decreases |s|
  {
    IsPrefix(p, s) || (|s| > 0 && Contains(s[1..], p))
  }

  /** `p` starts at position `i` of `s`. */
  predicate OccursAt(s: string, p: string, i: int)
  {
    0 <= i <= |s| - |p| && s[i..i + |p|] == p
  }

  /** `Contains` agrees with "there is a position where `p` starts". */
  lemma {:induction false} ContainsIff(s: string, p: string)
    ensures Contains(s, p) <==> exists i :: OccursAt(s, p, i)
    decreases |s|
  {
    if IsPrefix(p, s) {
      assert OccursAt(s, p, 0);
    } else if |s| > 0 {
      ContainsIff(s[1..], p);
      if Contains(s[1..], p) {
        var i :| OccursAt(s[1..], p, i);
        assert s[i + 1..i + 1 + |p|] == s[1..][i..i + |p|];
        assert OccursAt(s, p, i + 1);
      } else {
        forall i | 0 <= i <= |s| - |p|
          ensures !OccursAt(s, p, i)
        {
          if i > 0 {
            assert s[i..i + |p|] == s[1..][i - 1..i - 1 + |p|];
            assert !OccursAt(s[1..], p, i - 1);
          }
        }
      }
    }
  }

  /** Anything written into the middle of a string can be found in it again. */
  lemma ContainsInfix(a: string, p: string, b: string)
    ensures Contains(a + p + b, p)
  {
    var s := a + p + b;
    assert OccursAt(s, p, |a|) by { assert s[|a|..|a| + |p|] == p; }
    ContainsIff(s, p);
  }

  /** Where `a + b` is found, so is `a`. */
  lemma ContainsPrefixOfPattern(s: string, a: string, b: string)
    requires Contains(s, a + b)
    ensures Contains(s, a)
  {
    ContainsIff(s, a + b);
    var i :| OccursAt(s, a + b, i);
    assert s[i..i + |a|] == (a + b)[..|a|] == a;
    assert OccursAt(s, a, i);
    ContainsIff(s, a);
  }

  // ---------------------------------------------------------------------
  // Joining and stripping
  // ---------------------------------------------------------------------

  /** `" ".join(xs)` */
  function JoinSpace(xs: seq<string>): string
  {
    if |xs| == 0 then ""
    else if |xs| == 1 then xs[0]
    else xs[0] + " " + JoinSpace(xs[1..])
  }

  /** Every element of a joined command line can be found in it. */
  lemma {:induction false} JoinSpaceContains(xs: seq<string>, k: nat)
    requires k < |xs|
    ensures Contains(JoinSpace(xs), xs[k])
  {
    if |xs| == 1 {
      ContainsInfix([], xs[0], []);
      assert [] + xs[0] + [] == xs[0];
    } else if k == 0 {
      ContainsInfix([], xs[0], " " + JoinSpace(xs[1..]));
      assert [] + xs[0] + (" " + JoinSpace(xs[1..])) == JoinSpace(xs);
    } else {
      JoinSpaceContains(xs[1..], k - 1);
      var rest := JoinSpace(xs[1..]);
      var p := xs[k];
      assert xs[1..][k - 1] == p;
      ContainsIff(rest, p);
      var i :| OccursAt(rest, p, i);
      var whole := JoinSpace(xs);
      var off := |xs[0]| + 1;
      assert whole == xs[0] + " " + rest;
      assert whole[off + i..off + i + |p|] == rest[i..i + |p|];
      assert OccursAt(whole, p, off + i);
      ContainsIff(whole, p);
    }
  }

  /** `s.lstrip()` */
  function StripLeft(s: string): (r: string)
    ensures |r| <= |s| && r == s[|s| - |r|..]
    ensures r == [] || !IsSpace(r[0])
  {
    if |s| > 0 && IsSpace(s[0]) then StripLeft(s[1..]) else s
  }

  /** `s.rstrip()` */
  function StripRight(s: string): (r: string)
    ensures |r| <= |s| && r == s[..|r|]
    ensures r == [] || !IsSpace(r[|r| - 1])
  {
    if |s| > 0 && IsSpace(s[|s| - 1]) then StripRight(s[..|s| - 1]) else s
  }

  /** `lstrip()` removes whitespace only. */
  lemma {:induction false} StripLeftDropsOnlySpace(s: string)
    ensures forall i :: 0 <= i < |s| - |StripLeft(s)| ==> IsSpace(s[i])
    decreases |s|
  {
    if |s| > 0 && IsSpace(s[0]) {
      StripLeftDropsOnlySpace(s[1..]);
      forall i | 0 < i < |s| - |StripLeft(s)|
        ensures IsSpace(s[i])
      {
        assert s[i] == s[1..][i - 1];
      }
    }
  }

  /** `rstrip()` removes whitespace only. */
  lemma {:induction false} StripRightDropsOnlySpace(s: string)
    ensures forall i :: |StripRight(s)| <= i < |s| ==> IsSpace(s[i])
    decreases |s|
  {
    if |s| > 0 && IsSpace(s[|s| - 1]) {
      StripRightDropsOnlySpace(s[..|s| - 1]);
      forall i | |StripRight(s)| <= i < |s| - 1
        ensures IsSpace(s[i])
      {
        assert s[i] == s[..|s| - 1][i];
      }
    }
  }

  /** `s.strip()` */
  function Strip(s: string): string { StripRight(StripLeft(s)) }

  /** The lower-case hexadecimal digit for `d`. */
  function HexDigit(d: nat): (c: char)
    requires d < 16
    ensures IsDigit(c) || 'a' <= c <= 'f'
  {
    if d < 10 then DigitChar(d) else ('a' as int + d - 10) as char
  }

  /**
    A character `repr` does not show as itself below U+0100: the C0
    controls, DEL, the C1 controls, no-break space and soft hyphen.
   */
  predicate Unprintable(c: char)
  {
    c < ' ' || 0x7f <= c as int <= 0xa0 || c as int == 0xad
  }

  /** How `repr` writes one character inside quotes `q`. */
  function EscapeChar(c: char, q: char): (e: string)
    requires q == '\'' || q == '"'
    ensures |e| >= 1 && forall i :: 0 <= i < |e| ==> !Unprintable(e[i])
  {
    if c == q || c == '\\' then ['\\', c]
    else if c == '\t' then "\\t"
    else if c == '\n' then "\\n"
    else if c == '\r' then "\\r"
    else if c as int < 0x100 && Unprintable(c) then ['\\', 'x', HexDigit(c as int / 16), HexDigit(c as int % 16)]
    else [c]
  }

  /** The characters of `s` as `repr` writes them inside quotes `q`. */
  function EscapeAll(s: string, q: char): (e: string)
    requires q == '\'' || q == '"'
    ensures |e| >= |s|
  {
    if s == [] then [] else EscapeChar(s[0], q) + EscapeAll(s[1..], q)
  }

  /**
    `repr(s)`: single quotes, or double quotes when `s` has a single quote
    and no double quote; backslashes, the chosen quote, \t, \n, \r and the
    unprintable characters below U+0100 escaped.
   */
  function Repr(s: string): string
  {
    var q := if '\'' in s && '"' !in s then '"' else '\'';
    [q] + EscapeAll(s, q) + [q]
  }

  /** Characters `repr` leaves alone inside single quotes. */
  predicate PlainText(s: string)
  {
    forall i :: 0 <= i < |s| ==> s[i] != '\'' && s[i] != '\\' && !Unprintable(s[i])
  }

  /** On plain text `repr` only adds the quotes. */
  lemma {:induction false} ReprPlain(s: string)
    requires PlainText(s)
    ensures Repr(s) == "'" + s + "'"
  {
    EscapeAllPlain(s);
  }

  lemma {:induction false} EscapeAllPlain(s: string)
    requires PlainText(s)
    ensures EscapeAll(s, '\'') == s
  {
    if s != [] {
      assert PlainText(s[1..]) by {
        forall i | 0 <= i < |s[1..]| ensures s[1..][i] != '\'' && s[1..][i] != '\\' && !Unprintable(s[1..][i]) {
          assert s[1..][i] == s[i + 1];
        }
      }
      EscapeAllPlain(s[1..]);
      assert [s[0]] + s[1..] == s;
    }
  }

  /** `repr` never writes an unprintable character, so its output reads as one line. */
  lemma {:induction false} ReprPrintable(s: string)
    ensures forall i :: 0 <= i < |Repr(s)| ==> !Unprintable(Repr(s)[i])
  {
    var q := if '\'' in s && '"' !in s then '"' else '\'';
    EscapeAllPrintable(s, q);
  }

  lemma {:induction false} EscapeAllPrintable(s: string, q: char)
    requires q == '\'' || q == '"'
    ensures forall i :: 0 <= i < |EscapeAll(s, q)| ==> !Unprintable(EscapeAll(s, q)[i])
  {
    if s != [] {
      EscapeAllPrintable(s[1..], q);
      var e, rest := EscapeChar(s[0], q), EscapeAll(s[1..], q);
      assert EscapeAll(s, q) == e + rest;
      forall i | 0 <= i < |e + rest| ensures !Unprintable((e + rest)[i]) {
        if i >= |e| { assert (e + rest)[i] == rest[i - |e|]; }
      }
    }
  }

  // ---------------------------------------------------------------------
  // Decimal text
  // ---------------------------------------------------------------------

  function DigitChar(d: nat): (c: char)
    requires d < 10
    ensures IsDigit(c) && c as int - '0' as int == d
  {
    ('0' as int + d) as char
  }

  /** The value of one ASCII digit. */
  function DigitVal(c: char): int { c as int - '0' as int }

  /** The value of a string of ASCII digits. */
  function DigitsValue(s: string): nat
    requires AllDigits(s)
  {
    if s == [] then 0
    else DigitsValue(s[..|s| - 1]) * 10 + (s[|s| - 1] as int - '0' as int)
  }

  /** `str(n)` for a non-negative integer. */
  function NatToString(n: nat): (s: string)
    ensures |s| >= 1 && AllDigits(s)
  {
    if n < 10 then [DigitChar(n)] else NatToString(n / 10) + [DigitChar(n % 10)]
  }

  /** A two-digit string is worth ten times its first digit plus its second. */
  lemma DigitsValueTwo(s: string)
    requires |s| == 2 && AllDigits(s)
    ensures DigitsValue(s) == 10 * DigitVal(s[0]) + DigitVal(s[1])
  {
    assert s[..1] == [s[0]];
    assert s[..1][..0] == [];
    assert DigitsValue(s[..1]) == DigitVal(s[0]);
  }

  /** `str(i)` */
  function IntToString(i: int): string
  {
    if i < 0 then "-" + NatToString(-i) else NatToString(i)
  }

  /** Reading back what `str` wrote gives the number again. */
  lemma {:induction false} NatToStringRoundTrip(n: nat)
    ensures DigitsValue(NatToString(n)) == n
    decreases n
  {
    if n >= 10 {
      NatToStringRoundTrip(n / 10);
      var s := NatToString(n);
      assert s[..|s| - 1] == NatToString(n / 10);
    }
  }

  /**
    The text of an `int()` literal after its sign: ASCII digits, where a
    single underscore may separate two digits.
   */
  predicate DigitRun(t: string)
  {
    && |t| >= 1 && IsDigit(t[0])
    && (|t| == 1 || DigitRun(t[1..]) || (t[1] == '_' && DigitRun(t[2..])))
  }

  /** The digits of `t`, in order. */
  function DigitsOf(t: string): (d: string)
    ensures AllDigits(d) && |d| <= |t|
    ensures AllDigits(t) ==> d == t
  {
    if t == [] then []
    else if IsDigit(t[0]) then [t[0]] + DigitsOf(t[1..])
    else DigitsOf(t[1..])
  }

  /**
    `int(s)`: surrounding whitespace, one optional sign, then ASCII digits
    with single underscores allowed between them; None where Python raises
    ValueError.
   */
  function PyInt(s: string): (r: Option<int>)
    ensures r.Some? ==> Strip(s) != []
  {
    var t := Strip(s);
    if t == [] then None
    else if (t[0] == '-' || t[0] == '+') && DigitRun(t[1..]) then
      Some(if t[0] == '-' then -(DigitsValue(DigitsOf(t[1..])) as int) else DigitsValue(DigitsOf(t[1..])))
    else if DigitRun(t) then Some(DigitsValue(DigitsOf(t)))
    else None
  }

  /** A non-empty string of digits is a digit run and its own digits. */
  lemma {:induction false} DigitsAreRun(d: string)
    requires |d| >= 1 && AllDigits(d)
    ensures DigitRun(d) && DigitsOf(d) == d
  {
    if |d| > 1 {
      DigitsAreRun(d[1..]);
    }
  }

  /** How `int()` reads text that neither starts nor ends with whitespace. */
  lemma {:induction false} PyIntUnpadded(t: string)
    requires t != [] && !IsSpace(t[0]) && !IsSpace(t[|t| - 1])
    ensures DigitRun(t) ==> PyInt(t) == Some(DigitsValue(DigitsOf(t)))
    ensures |t| >= 2 && t[0] == '-' && DigitRun(t[1..]) ==> PyInt(t) == Some(-(DigitsValue(DigitsOf(t[1..])) as int))
    ensures t[0] != '-' && t[0] != '+' && !DigitRun(t) ==> PyInt(t) == None
  {
    NoSpaceStrip(t);
  }

  /** A digit is neither whitespace, nor a sign, nor an underscore. */
  lemma DigitIsPlain(c: char)
    requires IsDigit(c)
    ensures !IsSpace(c) && c != '-' && c != '+' && c != '_'
  {
  }

  /** A run of digits reads as its value. */
  lemma {:induction false} PyIntOfDigits(d: string)
    requires |d| >= 1 && AllDigits(d)
    ensures PyInt(d) == Some(DigitsValue(d))
  {
    DigitsAreRun(d);
    DigitIsPlain(d[0]);
    DigitIsPlain(d[|d| - 1]);
    PyIntUnpadded(d);
  }

  /** A minus sign followed by a run of digits reads as minus their value. */
  lemma {:induction false} PyIntOfNegative(t: string, d: string)
    requires |d| >= 1 && AllDigits(d) && |t| == |d| + 1 && t[0] == '-' && t[1..] == d
    ensures PyInt(t) == Some(-(DigitsValue(d) as int))
  {
    DigitsAreRun(d);
    DigitIsPlain(d[|d| - 1]);
    assert t[|t| - 1] == d[|d| - 1];
    PyIntUnpadded(t);
  }

  /** `int(str(i)) == i` */
  lemma {:induction false} PyIntOfStr(i: int)
    ensures PyInt(IntToString(i)) == Some(i)
  {
    var n := if i < 0 then -i else i;
    NatToStringRoundTrip(n);
    if i < 0 {
      PyIntOfNegative(IntToString(i), NatToString(n));
    } else {
      PyIntOfDigits(NatToString(n));
    }
  }

  /** Text that starts and ends with a non-space is its own `strip()`. */
  lemma {:induction false} NoSpaceStrip(t: string)
    requires t != [] ==> !IsSpace(t[0]) && !IsSpace(t[|t| - 1])
    ensures Strip(t) == t
  {
  }

  /** The digits of a concatenation are those of each part. */
  lemma {:induction false} DigitsOfJoin(x: string, y: string)
    ensures DigitsOf(x + y) == DigitsOf(x) + DigitsOf(y)
    decreases |x|
  {
    if x == [] {
      assert x + y == y;
    } else {
      DigitsOfJoin(x[1..], y);
      assert (x + y)[0] == x[0] && (x + y)[1..] == x[1..] + y;
      var head := if IsDigit(x[0]) then [x[0]] else [];
      assert DigitsOf(x + y) == head + (DigitsOf(x[1..]) + DigitsOf(y));
      assert DigitsOf(x) == head + DigitsOf(x[1..]);
    }
  }

  /** One underscore between two runs of digits keeps a digit run. */
  lemma {:induction false} RunJoined(a: string, b: string)
    requires |a| >= 1 && AllDigits(a) && DigitRun(b)
    ensures DigitRun(a + ['_'] + b)
    decreases |a|
  {
    var t := a + ['_'] + b;
    if |a| == 1 {
      assert t[1] == '_' && t[2..] == b;
    } else {
      RunJoined(a[1..], b);
      assert t[1..] == a[1..] + ['_'] + b;
    }
  }

  /** Two underscores in a row are never part of a digit run. */
  lemma {:induction false} RunNoDoubleUnderscore(a: string, b: string)
    requires AllDigits(a)
    ensures !DigitRun(a + ['_', '_'] + b)
    decreases |a|
  {
    var t := a + ['_', '_'] + b;
    if |a| == 1 {
      assert t[1..] == ['_', '_'] + b && t[2..] == ['_'] + b;
    } else if |a| > 1 {
      RunNoDoubleUnderscore(a[1..], b);
      assert t[1..] == a[1..] + ['_', '_'] + b;
    }
  }

  /** A digit run never ends with an underscore. */
  lemma {:induction false} RunNoTrailingUnderscore(a: string)
    requires AllDigits(a)
    ensures !DigitRun(a + ['_'])
    decreases |a|
  {
    var t := a + ['_'];
    if |a| == 1 {
      assert t[1..] == ['_'] && t[2..] == [];
    } else if |a| > 1 {
      RunNoTrailingUnderscore(a[1..]);
      assert t[1..] == a[1..] + ['_'];
    }
  }

  /** `int()` reads past one underscore between digits: `int("2_0") == 20`. */
  lemma {:induction false} PyIntUnderscore(a: string, b: string)
    requires |a| >= 1 && |b| >= 1 && AllDigits(a) && AllDigits(b)
    ensures PyInt(a + ['_'] + b) == Some(DigitsValue(a + b))
  {
    var t := a + ['_'] + b;
    assert t[0] == a[0] && t[|t| - 1] == b[|b| - 1];
    DigitIsPlain(a[0]);
    DigitIsPlain(b[|b| - 1]);
    DigitsAreRun(b);
    RunJoined(a, b);
    PyIntUnpadded(t);
    DigitsOfJoin(a + ['_'], b);
    DigitsOfJoin(a, ['_']);
    assert DigitsOf(t) == a + b;
  }

  /** `int()` rejects a doubled, a leading or a trailing underscore. */
  lemma {:induction false} PyIntStrayUnderscore(a: string, b: string)
    requires |a| >= 1 && |b| >= 1 && AllDigits(a) && AllDigits(b)
    ensures PyInt(a + ['_', '_'] + b) == None
    ensures PyInt(['_'] + a) == None
    ensures PyInt(a + ['_']) == None
  {
    DigitIsPlain(a[0]);
    DigitIsPlain(a[|a| - 1]);
    DigitIsPlain(b[|b| - 1]);
    assert PyInt(a + ['_', '_'] + b) == None by {
      var t := a + ['_', '_'] + b;
      assert t[0] == a[0] && t[|t| - 1] == b[|b| - 1];
      RunNoDoubleUnderscore(a, b);
      PyIntUnpadded(t);
    }
    assert PyInt(['_'] + a) == None by {
      var t := ['_'] + a;
      assert t[0] == '_' && t[|t| - 1] == a[|a| - 1];
      PyIntUnpadded(t);
    }
    assert PyInt(a + ['_']) == None by {
      var t := a + ['_'];
      assert t[0] == a[0] && t[|t| - 1] == '_';
      RunNoTrailingUnderscore(a);
      PyIntUnpadded(t);
    }
  }

  /** `s.zfill(2)` for a string without a sign. */
  function ZFill2(s: string): (r: string)
    ensures |r| == if |s| >= 2 then |s| else 2
  {
    if |s| >= 2 then s else seq(2 - |s|, _ => '0') + s
  }

  /** Zero-padding does not change the number a digit string denotes. */
  lemma {:induction false} ZFill2Value(s: string)
    requires AllDigits(s)
    ensures AllDigits(ZFill2(s)) && DigitsValue(ZFill2(s)) == DigitsValue(s)
  {
    if |s| == 1 {
      var z := ZFill2(s);
      assert z == ['0', s[0]];
      assert z[..1] == ['0'];
      assert DigitsValue(['0']) == 0 by { assert ['0'][..0] == []; }
      assert s[..0] == [];
    } else if |s| == 0 {
      var z := ZFill2(s);
      assert z == ['0', '0'];
      assert z[..1] == ['0'];
      assert ['0'][..0] == [];
    }
  }

  // ---------------------------------------------------------------------
  // Splitting
  // ---------------------------------------------------------------------

  /** `s.split(sep)` */
  function SplitOn(s: string, sep: char): (parts: seq<string>)
    ensures |parts| >= 1
    decreases |s|
  {
    if s == [] then [""]
    else
      var tail := SplitOn(s[1..], sep);
      if s[0] == sep then [""] + tail else [[s[0]] + tail[0]] + tail[1..]
  }

  /** Splitting at the first separator peels off the text in front of it. */
  lemma {:induction false} SplitOnFirst(a: string, sep: char, b: string)
    requires sep !in a
    ensures SplitOn(a + [sep] + b, sep) == [a] + SplitOn(b, sep)
    decreases |a|
  {
    if a == [] {
      assert (a + [sep] + b)[1..] == b;
    } else {
      SplitOnFirst(a[1..], sep, b);
      assert (a + [sep] + b)[1..] == a[1..] + [sep] + b;
      assert [a[0]] + a[1..] == a;
    }
  }

  /** Text without the separator is one part. */
  lemma {:induction false} SplitOnNone(a: string, sep: char)
    requires sep !in a
    ensures SplitOn(a, sep) == [a]
    decreases |a|
  {
    if a != [] {
      SplitOnNone(a[1..], sep);
      assert [a[0]] + a[1..] == a;
    }
  }
}
