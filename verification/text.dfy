/** String helpers with Python's meaning: substring test, prefix test,
    whitespace as `str.isspace` sees it, `strip`, `lstrip` of one character,
    `rstrip` of one character, `join`, and decimal digits. */
module Text {
  import opened Wrappers

  /** `sub` occurs in `s` starting at index `i`. */
  predicate OccursAt(s: string, sub: string, i: nat)
  {
    i + |sub| <= |s| && s[i..i + |sub|] == sub
  }

  /** Python's `sub in s`. */
  predicate Contains(s: string, sub: string)
  {
    exists i: nat | i <= |s| :: OccursAt(s, sub, i)
  }

  lemma ContainsAt(s: string, sub: string, i: nat)
    requires OccursAt(s, sub, i)
    ensures Contains(s, sub)
  {
  }

  /** A string always contains itself, also when a prefix and a suffix are added. */
  lemma {:induction false} ContainsInfix(a: string, sub: string, b: string)
    ensures Contains(a + sub + b, sub)
  {
    var s := a + sub + b;
    assert s[|a|..|a| + |sub|] == sub;
    ContainsAt(s, sub, |a|);
  }

  /** Python's `s.startswith(p)`. */
  predicate StartsWith(s: string, p: string)
  {
    |p| <= |s| && s[..|p|] == p
  }

  /** Python's `str.isspace` for one character: the Unicode white space characters. */
  predicate IsSpace(c: char)
  {
    c == ' ' || ('\t' <= c <= '\r') || ('\U{1c}' <= c <= '\U{1f}')
    || c == '\U{85}' || c == '\U{a0}' || c == '\U{1680}'
    || ('\U{2000}' <= c <= '\U{200a}') || c == '\U{2028}' || c == '\U{2029}'
    || c == '\U{202f}' || c == '\U{205f}' || c == '\U{3000}'
  }

  function LStrip(s: string): (r: string)
    ensures |r| <= |s| && r == s[|s| - |r|..]
    ensures r != [] ==> !IsSpace(r[0])
    ensures forall i :: 0 <= i < |s| - |r| ==> IsSpace(s[i])
  {
    if s != [] && IsSpace(s[0]) then LStrip(s[1..]) else s
  }

  function RStrip(s: string): (r: string)
    ensures |r| <= |s| && r == s[..|r|]
    ensures r != [] ==> !IsSpace(r[|r| - 1])
    ensures forall i :: |r| <= i < |s| ==> IsSpace(s[i])
  {
    if s != [] && IsSpace(s[|s| - 1]) then RStrip(s[..|s| - 1]) else s
  }

  /** Python's `s.strip()` with no argument. */
  function Strip(s: string): string
  {
    RStrip(LStrip(s))
  }

  /** Python's `s.lstrip(c)` for a single character `c`. */
  function LStripChar(s: string, c: char): (r: string)
    ensures |r| <= |s| && r == s[|s| - |r|..]
    ensures r != [] ==> r[0] != c
    ensures forall i :: 0 <= i < |s| - |r| ==> s[i] == c
  {
    if s != [] && s[0] == c then LStripChar(s[1..], c) else s
  }

  /** Python's `s.rstrip(c)` for a single character `c`. */
  function RStripChar(s: string, c: char): (r: string)
    ensures |r| <= |s| && r == s[..|r|]
    ensures r != [] ==> r[|r| - 1] != c
    ensures forall i :: |r| <= i < |s| ==> s[i] == c
  {
    if s != [] && s[|s| - 1] == c then RStripChar(s[..|s| - 1], c) else s
  }

  /** `s.strip()` is empty exactly when `s` is all white space. */
  lemma StripEmpty(s: string)
    ensures Strip(s) == "" <==> forall i :: 0 <= i < |s| ==> IsSpace(s[i])
  {
    var l := LStrip(s);
    if Strip(s) == "" {
      assert l == [];
    }
  }

  /** Python's `s.replace(c, "")` for a single character `c`. */
  function Remove(s: string, c: char): (r: string)
    ensures |r| <= |s| && c !in r
  {
    if s == [] then [] else (if s[0] == c then [] else [s[0]]) + Remove(s[1..], c)
  }

  /** Python's `sep.join(blocks)`. */
  function Join(blocks: seq<string>, sep: string): string
  {
    if blocks == [] then ""
    else if |blocks| == 1 then blocks[0]
    else blocks[0] + sep + Join(blocks[1..], sep)
  }

  /** Joining two non-empty lists of blocks puts one separator between the two joins. */
  lemma {:induction false} JoinAppend(a: seq<string>, b: seq<string>, sep: string)
    requires a != [] && b != []
    ensures Join(a + b, sep) == Join(a, sep) + sep + Join(b, sep)
  {
    if |a| == 1 {
      assert (a + b)[1..] == b;
    } else {
      assert (a + b)[1..] == a[1..] + b;
      JoinAppend(a[1..], b, sep);
    }
  }

  /** An ASCII decimal digit. */
  predicate IsDigit(c: char)
  {
    '0' <= c <= '9'
  }

  predicate AllDigits(s: string)
  {
    forall i :: 0 <= i < |s| ==> IsDigit(s[i])
  }

  /** The value of a string of decimal digits, most significant first. */
  function DigitsValue(s: string): nat
    requires AllDigits(s)
  {
    if s == [] then 0 else DigitsValue(s[..|s| - 1]) * 10 + (s[|s| - 1] as int - '0' as int)
  }

  /** The shortest decimal rendering of `n` (Python's `str(n)` for a non-negative int). */
  function Decimal(n: nat): (r: string)
    ensures r != [] && AllDigits(r)
  {
    var d := [('0' as int + n % 10) as char];
    if n < 10 then d else Decimal(n / 10) + d
  }

  /** Rendering and reading back decimal digits are inverse. */
  lemma {:induction false} DecimalRoundTrip(n: nat)
    ensures DigitsValue(Decimal(n)) == n
  {
    var d := [('0' as int + n % 10) as char];
    if n >= 10 {
      DecimalRoundTrip(n / 10);
      var s := Decimal(n / 10) + d;
      assert s[..|s| - 1] == Decimal(n / 10);
    }
  }

  /** Digits with single underscores between them, as `int` accepts them. */
  predicate Grouped(b: string)
  {
    b != [] && IsDigit(b[0]) && IsDigit(b[|b| - 1])
    && (forall i :: 0 <= i < |b| ==> IsDigit(b[i]) || b[i] == '_')
    && (forall i :: 0 <= i < |b| - 1 ==> b[i] == '_' ==> b[i + 1] != '_')
  }

  /** Python's `int(s)` on a string: white space around, an optional sign, and
      grouped decimal digits; `None` where `int` raises `ValueError`. */
  function ParseInt(s: string): (r: Option<int>)
    ensures r.Some? ==> Grouped(Unsigned(Strip(s)))
  {
    var t := Strip(s);
    var body := Unsigned(t);
    if !Grouped(body) then None
    else
      GroupedDigits(body);
      var magnitude: int := DigitsValue(Remove(body, '_'));
      Some(if t[0] == '-' then -magnitude else magnitude)
  }

  /** The text after an optional leading sign. */
  function Unsigned(t: string): (r: string)
    ensures r == t || (t != [] && (t[0] == '-' || t[0] == '+') && r == t[1..])
  {
    if t != [] && (t[0] == '-' || t[0] == '+') then t[1..] else t
  }

  lemma GroupedDigits(b: string)
    requires Grouped(b)
    ensures AllDigits(Remove(b, '_'))
  {
    var r := Remove(b, '_');
    RemoveKeeps(b, '_');
    forall i | 0 <= i < |r| ensures IsDigit(r[i]) {
      assert r[i] in b;
    }
  }

  /** `Remove` only drops characters, and drops nothing when `c` does not occur. */
  lemma {:induction false} RemoveKeeps(s: string, c: char)
    ensures forall x :: x in Remove(s, c) ==> x in s
    ensures c !in s ==> Remove(s, c) == s
  {
    if s != [] {
      RemoveKeeps(s[1..], c);
      assert s == [s[0]] + s[1..];
    }
  }

  /** `str(x)` for any integer. */
  function IntStr(x: int): (r: string)
    ensures r != []
  {
    if x < 0 then "-" + Decimal(-x) else Decimal(x)
  }

  /** `int(str(x)) == x`, also with white space around the text. */
  lemma IntRoundTrip(x: int, pad: string, pad2: string)
    requires forall i :: 0 <= i < |pad| ==> IsSpace(pad[i])
    requires forall i :: 0 <= i < |pad2| ==> IsSpace(pad2[i])
    ensures ParseInt(pad + IntStr(x) + pad2) == Some(x)
  {
    var n: nat := if x < 0 then -x else x;
    IntStrShape(x);
    StripAround(pad, IntStr(x), pad2);
    RemoveKeeps(Decimal(n), '_');
    DecimalRoundTrip(n);
  }

  /** `str(x)` has no white space at its ends, and after its sign it is the
      digits of `|x|`, without underscores. */
  lemma IntStrShape(x: int)
    ensures var t := IntStr(x); var d := Decimal(if x < 0 then -x else x);
      !IsSpace(t[0]) && !IsSpace(t[|t| - 1]) && Unsigned(t) == d && Grouped(d) && '_' !in d
      && (t[0] == '-' <==> x < 0)
  {
    var n: nat := if x < 0 then -x else x;
    var d := Decimal(n);
    var t := IntStr(x);
    assert t[|t| - 1] == d[|d| - 1];
    DigitNotSpace(d[|d| - 1]);
    if x >= 0 {
      DigitNotSpace(d[0]);
    } else {
      assert t[1..] == d;
    }
    assert '_' !in d by {
      forall i | 0 <= i < |d| ensures d[i] != '_' {
        assert IsDigit(d[i]);
      }
    }
  }

  lemma DigitNotSpace(c: char)
    requires IsDigit(c)
    ensures !IsSpace(c)
  {
  }

  /** Stripping white space from around a text that starts and ends with other
      characters gives the text. */
  lemma StripAround(pad: string, t: string, pad2: string)
    requires forall i :: 0 <= i < |pad| ==> IsSpace(pad[i])
    requires forall i :: 0 <= i < |pad2| ==> IsSpace(pad2[i])
    requires t != [] && !IsSpace(t[0]) && !IsSpace(t[|t| - 1])
    ensures Strip(pad + t + pad2) == t
  {
    assert pad + t + pad2 == pad + (t + pad2);
    LStripSpaces(pad, t + pad2);
    RStripSpaces(t, pad2);
  }

  lemma {:induction false} LStripSpaces(pad: string, u: string)
    requires forall i :: 0 <= i < |pad| ==> IsSpace(pad[i])
    requires u != [] && !IsSpace(u[0])
    ensures LStrip(pad + u) == u
  {
    if pad != [] {
      assert (pad + u)[1..] == pad[1..] + u;
      LStripSpaces(pad[1..], u);
    }
  }

  lemma {:induction false} RStripSpaces(u: string, pad: string)
    requires forall i :: 0 <= i < |pad| ==> IsSpace(pad[i])
    requires u != [] && !IsSpace(u[|u| - 1])
    ensures RStrip(u + pad) == u
  {
    if pad != [] {
      assert (u + pad)[..|u + pad| - 1] == u + pad[..|pad| - 1];
      RStripSpaces(u, pad[..|pad| - 1]);
    }
  }
}
