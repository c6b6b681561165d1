/**
 * The three library routines the decoder and the plot rely on, stated over
 * unbounded numbers: `str.split()` with no separator, `float(token)` on
 * decimal strings, and `math.ceil`.
 */
module Text {
  import opened Wrappers

  // ---------------------------------------------------------------------
  // str.split() with no separator
  // ---------------------------------------------------------------------

  /** The characters Python's `str.isspace` accepts, on which `str.split()` splits. */
  predicate IsSpace(c: char) {
    c == ' ' || ('\t' <= c <= '\r') || ('\U{1c}' <= c <= '\U{1f}')
    || c == '\U{85}' || c == '\U{a0}' || c == '\U{1680}'
    || ('\U{2000}' <= c <= '\U{200a}') || c == '\U{2028}' || c == '\U{2029}'
    || c == '\U{202f}' || c == '\U{205f}' || c == '\U{3000}'
  }

  /** A token `str.split()` can produce: non-empty and free of whitespace. */
  predicate IsToken(t: string) {
    |t| > 0 && forall i :: 0 <= i < |t| ==> !IsSpace(t[i])
  }

  /** The longest prefix of `s` that holds no whitespace. */
  function Word(s: string): (w: string)
    ensures |w| <= |s| && w == s[..|w|]
    ensures forall i :: 0 <= i < |w| ==> !IsSpace(w[i])
    ensures |w| < |s| ==> IsSpace(s[|w|])
  {
    if s == [] || IsSpace(s[0]) then [] else [s[0]] + Word(s[1..])
  }

  /**
   * `s.split()`: the maximal runs of non-whitespace characters of `s`, in
   * order; leading, trailing and repeated whitespace yields no empty token.
   */
  function Split(s: string): (tokens: seq<string>)
    ensures forall k :: 0 <= k < |tokens| ==> IsToken(tokens[k])
    decreases |s|
  {
    if s == [] then []
    else if IsSpace(s[0]) then Split(s[1..])
    else
      var w := Word(s);
      [w] + Split(s[|w|..])
  }

  /** `" ".join(tokens)`: the tokens separated by single spaces. */
  function Join(tokens: seq<string>): string {
    if |tokens| == 0 then ""
    else if |tokens| == 1 then tokens[0]
    else tokens[0] + " " + Join(tokens[1..])
  }

  lemma JoinCons(t: string, rest: seq<string>)
    requires |rest| > 0
    ensures Join([t] + rest) == t + " " + Join(rest)
  {
    assert ([t] + rest)[1..] == rest;
  }

  /** Joining two non-empty token lists one after the other puts one space between their joins. */
  lemma {:induction false} JoinAppend(a: seq<string>, b: seq<string>)
    requires |a| > 0 && |b| > 0
    ensures Join(a + b) == Join(a) + " " + Join(b)
    decreases |a|
  {
    if |a| == 1 {
      JoinCons(a[0], b);
      assert a + b == [a[0]] + b;
    } else {
      JoinAppend(a[1..], b);
      assert (a + b)[1..] == a[1..] + b;
    }
  }

  lemma {:induction false} WordOfToken(t: string, rest: string)
    requires IsToken(t)
    requires rest == [] || IsSpace(rest[0])
    ensures Word(t + rest) == t
  {
    if |t| > 1 {
      assert (t + rest)[1..] == t[1..] + rest;
      WordOfToken(t[1..], rest);
    } else {
      assert (t + rest)[1..] == rest;
    }
  }

  /** Splitting the single-space join of whitespace-free tokens gives the tokens back. */
  lemma {:induction false} SplitJoin(tokens: seq<string>)
    requires forall k :: 0 <= k < |tokens| ==> IsToken(tokens[k])
    ensures Split(Join(tokens)) == tokens
    decreases |tokens|
  {
    if |tokens| == 1 {
      var t := tokens[0];
      WordOfToken(t, []);
      assert t + [] == t;
      assert t[|t|..] == [];
    } else if |tokens| > 1 {
      var t, rest := tokens[0], Join(tokens[1..]);
      var s := t + " " + rest;
      assert s == t + (" " + rest);
      WordOfToken(t, " " + rest);
      assert s[|t|..] == " " + rest;
      assert (" " + rest)[1..] == rest;
      SplitJoin(tokens[1..]);
      assert tokens == [t] + tokens[1..];
    }
  }

  // ---------------------------------------------------------------------
  // float(token) on decimal strings
  // ---------------------------------------------------------------------

  predicate IsDigit(c: char) {
    '0' <= c <= '9'
  }

  predicate AllDigits(s: string) {
    forall i :: 0 <= i < |s| ==> IsDigit(s[i])
  }

  function DigitValue(c: char): (v: nat)
    requires IsDigit(c)
    ensures v < 10
  {
    (c as int) - ('0' as int)
  }

  /** The natural number a string of decimal digits denotes (0 for the empty string). */
  function DigitsValue(s: string): nat
    requires AllDigits(s)
  {
    if s == [] then 0 else DigitsValue(s[..|s| - 1]) * 10 + DigitValue(s[|s| - 1])
  }

  /** The value of the digits after a decimal point: 0.d1d2d3... */
  function FractionValue(s: string): real
    requires AllDigits(s)
  {
    if s == [] then 0.0 else (DigitValue(s[0]) as real + FractionValue(s[1..])) / 10.0
  }

  /** The index of the first '.' in `s`, or `|s|` when there is none. */
  function DotIndex(s: string): (k: nat)
    ensures k <= |s|
    ensures forall i :: 0 <= i < k ==> s[i] != '.'
    ensures k < |s| ==> s[k] == '.'
  {
    if s == [] then 0 else if s[0] == '.' then 0 else 1 + DotIndex(s[1..])
  }

  /** An unsigned decimal: digits, optionally a point and more digits, at least one digit in all. */
  function ParseUnsigned(s: string): (r: Option<real>)
    ensures r.Some? ==> forall i :: 0 <= i < |s| ==> IsDigit(s[i]) || s[i] == '.'
    ensures r.Some? ==> exists i :: 0 <= i < |s| && IsDigit(s[i])
  {
    var k := DotIndex(s);
    var whole, fraction := s[..k], if k < |s| then s[k + 1..] else "";
    if AllDigits(whole) && AllDigits(fraction) && |whole| + |fraction| > 0 then
      UnsignedChars(s, k);
      Some(DigitsValue(whole) as real + FractionValue(fraction))
    else
      None
  }

  /** The characters of a string `ParseUnsigned` accepts: digits around at most one point, one digit at least. */
  lemma UnsignedChars(s: string, k: nat)
    requires k == DotIndex(s)
    requires AllDigits(s[..k]) && AllDigits(if k < |s| then s[k + 1..] else "")
    requires |s[..k]| + |if k < |s| then s[k + 1..] else ""| > 0
    ensures forall i :: 0 <= i < |s| ==> IsDigit(s[i]) || s[i] == '.'
    ensures exists i :: 0 <= i < |s| && IsDigit(s[i])
  {
    var fraction := if k < |s| then s[k + 1..] else "";
    forall i | 0 <= i < |s|
      ensures IsDigit(s[i]) || s[i] == '.'
    {
      if i < k {
        assert s[i] == s[..k][i];
      } else if i > k {
        assert s[i] == fraction[i - k - 1];
      }
    }
    if k > 0 {
      assert IsDigit(s[..k][0]);
    } else {
      assert IsDigit(fraction[0]);
      assert s[k + 1] == fraction[0];
    }
  }

  /** `float(s)` for a decimal string with an optional sign; `None` where Python raises ValueError. */
  function ParseReal(s: string): (r: Option<real>)
    ensures r.Some? ==> exists i :: 0 <= i < |s| && IsDigit(s[i])
    ensures r.Some? ==> forall i :: 0 <= i < |s| ==> IsDigit(s[i]) || s[i] == '.' || (i == 0 && (s[0] == '+' || s[0] == '-'))
  {
    if |s| > 0 && (s[0] == '+' || s[0] == '-') then
      match ParseUnsigned(s[1..])
      case Some(v) => Some(if s[0] == '-' then -v else v)
      case None => None
    else
      ParseUnsigned(s)
  }

  /** `str(n)` for a natural number. */
  function NatToDecimal(n: nat): (s: string)
    ensures |s| > 0 && AllDigits(s)
  {
    var d := ['0' + ((n % 10) as char)];
    if n < 10 then d else NatToDecimal(n / 10) + d
  }

  lemma {:induction false} DigitsValueOfDecimal(n: nat)
    ensures DigitsValue(NatToDecimal(n)) == n
  {
    var s := NatToDecimal(n);
    assert s[..|s| - 1] == if n < 10 then "" else NatToDecimal(n / 10);
    if n >= 10 {
      DigitsValueOfDecimal(n / 10);
    }
  }

  /** A non-empty string of digits with no point parses to the number it denotes. */
  lemma ParseDigits(s: string)
    requires |s| > 0 && AllDigits(s)
    ensures ParseUnsigned(s) == Some(DigitsValue(s) as real)
  {
    DigitsHaveNoDot(s);
    var whole, fraction: string := s[..|s|], "";
    assert whole == s;
    assert FractionValue(fraction) == 0.0;
  }

  lemma DigitsHaveNoDot(s: string)
    requires AllDigits(s)
    ensures DotIndex(s) == |s|
  {
    assert forall i :: 0 <= i < |s| ==> s[i] != '.';
  }

  /** `float(str(n)) == n` and `float("-" + str(n)) == -n`: decimal integers parse to their value. */
  lemma ParseDecimal(n: nat)
    ensures ParseReal(NatToDecimal(n)) == Some(n as real)
    ensures ParseReal("-" + NatToDecimal(n)) == Some(-(n as real))
  {
    var s := NatToDecimal(n);
    DigitsValueOfDecimal(n);
    ParseDigits(s);
    assert IsDigit(s[0]);
    assert ("-" + s)[1..] == s;
  }

  // ---------------------------------------------------------------------
  // math.ceil
  // ---------------------------------------------------------------------

  /** `math.ceil(x)`: the least integer not below `x`. */
  function Ceil(x: real): (n: int)
    ensures x <= n as real < x + 1.0
  {
    -((-x).Floor)
  }

  lemma CeilMonotone(x: real, y: real)
    requires x <= y
    ensures Ceil(x) <= Ceil(y)
  {
  }
}
