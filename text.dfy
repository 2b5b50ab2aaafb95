/**
 * The string handling every screen shares: the character filters the input
 * handlers apply (a global regex replace with a negated class), the
 * single-occurrence `String#replace` with a string pattern, `trim`,
 * ASCII lower-casing, and JavaScript's `parseFloat` / `parseInt` restricted to
 * the characters the model admits (no exponent, no `Infinity`).
 */
module Text {
  import opened Common

  // ----- characters -----

  predicate IsDigit(c: char) { '0' <= c <= '9' }

  predicate AllDigits(s: string)
  {
    forall i :: 0 <= i < |s| ==> IsDigit(s[i])
  }

  /** True when every character of `s` belongs to `allowed`. */
  predicate AllIn(s: string, allowed: set<char>)
  {
    forall i :: 0 <= i < |s| ==> s[i] in allowed
  }

  const Digits: set<char> := {'0', '1', '2', '3', '4', '5', '6', '7', '8', '9'}

  /** The class `[0-9.,]`: what an amount field may hold. */
  const AmountChars: set<char> := Digits + {'.', ','}

  /** The class `[0-9,]`. */
  const DigitsAndComma: set<char> := Digits + {','}

  /**
   * The white space `trim` and `parseFloat` skip: ECMAScript's WhiteSpace (tab,
   * vertical tab, form feed, space, no-break space, the byte order mark and the
   * Unicode space separators) and LineTerminator (line feed, carriage return,
   * line and paragraph separators).
   */
  predicate IsSpace(c: char)
  {
    || '\t' <= c <= '\r'
    || c == ' ' || c == '\U{00A0}' || c == '\U{1680}'
    || '\U{2000}' <= c <= '\U{200A}'
    || c == '\U{2028}' || c == '\U{2029}' || c == '\U{202F}' || c == '\U{205F}'
    || c == '\U{3000}' || c == '\U{FEFF}'
  }

  /** Every character of `s` is white space. */
  predicate AllSpace(s: string)
  {
    forall i :: 0 <= i < |s| ==> IsSpace(s[i])
  }

  /** `[0-9]` is exactly the decimal digits. */
  lemma DigitsAreDigits(s: string)
    ensures AllIn(s, Digits) <==> AllDigits(s)
  {
  }

  // ----- filters: text.replace(/[^...]/g, "") -----

  /** `s` with every character outside `allowed` removed, in the original order. */
  function Filter(s: string, allowed: set<char>): (r: string)
    ensures |r| <= |s|
    ensures AllIn(r, allowed)
  {
    if s == [] then []
    else (if s[0] in allowed then [s[0]] else []) + Filter(s[1..], allowed)
  }

  /** Filtering keeps every occurrence of an allowed character and none of the others. */
  lemma {:induction false} FilterCounts(s: string, allowed: set<char>)
    ensures forall c :: c in allowed ==> multiset(Filter(s, allowed))[c] == multiset(s)[c]
    ensures forall c :: c !in allowed ==> multiset(Filter(s, allowed))[c] == 0
  {
    if s != [] {
      FilterCounts(s[1..], allowed);
      assert s == [s[0]] + s[1..];
    }
  }

  /** Filtering works piecewise: it keeps the relative order of what it keeps. */
  lemma {:induction false} FilterAppend(a: string, b: string, allowed: set<char>)
    ensures Filter(a + b, allowed) == Filter(a, allowed) + Filter(b, allowed)
  {
    if a == [] {
      assert a + b == b;
    } else {
      var ab := a + b;
      var head := if a[0] in allowed then [a[0]] else [];
      assert ab[0] == a[0] && ab[1..] == a[1..] + b;
      FilterAppend(a[1..], b, allowed);
      calc {
        Filter(ab, allowed);
        head + Filter(a[1..] + b, allowed);
        head + (Filter(a[1..], allowed) + Filter(b, allowed));
        (head + Filter(a[1..], allowed)) + Filter(b, allowed);
      }
    }
  }

  /** A text made only of allowed characters passes through unchanged; hence filtering is idempotent. */
  lemma {:induction false} FilterKeepsAllowed(s: string, allowed: set<char>)
    requires AllIn(s, allowed)
    ensures Filter(s, allowed) == s
  {
    if s != [] {
      FilterKeepsAllowed(s[1..], allowed);
    }
  }

  lemma FilterIdempotent(s: string, allowed: set<char>)
    ensures Filter(Filter(s, allowed), allowed) == Filter(s, allowed)
  {
    FilterKeepsAllowed(Filter(s, allowed), allowed);
  }

  // ----- text.replace(",", ".") : only the first occurrence -----

  /** The index of the first `c` in `s`, or `|s|` when there is none. */
  function IndexOf(s: string, c: char): (i: nat)
    ensures i <= |s|
  {
    if s == [] then 0
    else if s[0] == c then 0
    else 1 + IndexOf(s[1..], c)
  }

  /** IndexOf finds `c` there and nowhere before. */
  lemma {:induction false} IndexOfSpec(s: string, c: char)
    ensures IndexOf(s, c) < |s| ==> s[IndexOf(s, c)] == c
    ensures forall j :: 0 <= j < IndexOf(s, c) ==> s[j] != c
  {
    if s != [] && s[0] != c {
      IndexOfSpec(s[1..], c);
    }
  }

  /** `s.replace(from, to)` with one-character string patterns: only the first occurrence changes. */
  function ReplaceFirst(s: string, from: char, to: char): string
  {
    if s == [] then []
    else if s[0] == from then [to] + s[1..]
    else [s[0]] + ReplaceFirst(s[1..], from, to)
  }

  /** Only the first `from` becomes `to`; every other character stays where it was. */
  lemma {:induction false} ReplaceFirstSpec(s: string, from: char, to: char)
    ensures |ReplaceFirst(s, from, to)| == |s|
    ensures forall j :: 0 <= j < |s| ==>
      ReplaceFirst(s, from, to)[j] == (if j == IndexOf(s, from) then to else s[j])
  {
    if s != [] && s[0] != from {
      ReplaceFirstSpec(s[1..], from, to);
    }
  }

  /** Replacing back undoes the replacement when `to` did not occur in the text before. */
  lemma ReplaceFirstInverse(s: string, from: char, to: char)
    requires to !in s
    ensures ReplaceFirst(ReplaceFirst(s, from, to), to, from) == s
  {
    var r := ReplaceFirst(s, from, to);
    var i := IndexOf(s, from);
    ReplaceFirstSpec(s, from, to);
    IndexOfSpec(s, from);
    IndexOfSpec(r, to);
    if i < |s| {
      assert r[i] == to;
      assert forall j :: 0 <= j < i ==> r[j] == s[j] && r[j] != to;
      assert IndexOf(r, to) == i;
    } else {
      assert r == s;
      assert IndexOf(r, to) == |r|;
    }
  }

  /** A text without `from` is left alone. */
  lemma ReplaceFirstAbsent(s: string, from: char, to: char)
    requires from !in s
    ensures ReplaceFirst(s, from, to) == s
  {
    IndexOfSpec(s, from);
    assert IndexOf(s, from) == |s|;
  }

  // ----- trim -----

  /** `s` without its leading white space. */
  function TrimStart(s: string): (r: string)
    ensures |r| <= |s|
  {
    if s != [] && IsSpace(s[0]) then TrimStart(s[1..]) else s
  }

  /** TrimStart drops a prefix of white space and stops at the first other character. */
  lemma {:induction false} TrimStartSpec(s: string)
    ensures TrimStart(s) == s[|s| - |TrimStart(s)|..]
    ensures forall i :: 0 <= i < |s| - |TrimStart(s)| ==> IsSpace(s[i])
    ensures TrimStart(s) == [] || !IsSpace(TrimStart(s)[0])
  {
    if s != [] && IsSpace(s[0]) {
      TrimStartSpec(s[1..]);
    }
  }

  /** `s` without its trailing white space. */
  function TrimEnd(s: string): (r: string)
    ensures |r| <= |s|
  {
    if s != [] && IsSpace(s[|s| - 1]) then TrimEnd(s[..|s| - 1]) else s
  }

  /** TrimEnd drops a suffix of white space and stops at the last other character. */
  lemma {:induction false} TrimEndSpec(s: string)
    ensures TrimEnd(s) == s[..|TrimEnd(s)|]
    ensures forall i :: |TrimEnd(s)| <= i < |s| ==> IsSpace(s[i])
    ensures TrimEnd(s) == [] || !IsSpace(TrimEnd(s)[|TrimEnd(s)| - 1])
  {
    if s != [] && IsSpace(s[|s| - 1]) {
      TrimEndSpec(s[..|s| - 1]);
    }
  }

  /** JavaScript's `String#trim`. */
  function Trim(s: string): string
  {
    TrimEnd(TrimStart(s))
  }

  /** Trim removes exactly the padding around a word that starts and ends with a non-blank character. */
  lemma {:induction false} TrimPadded(left: string, core: string, right: string)
    requires AllSpace(left) && AllSpace(right)
    requires core != [] && !IsSpace(core[0]) && !IsSpace(core[|core| - 1])
    ensures Trim(left + core + right) == core
  {
    var tail := core + right;
    assert left + core + right == left + tail;
    TrimStartPadded(left, tail);
    TrimEndPadded(core, right);
  }

  lemma {:induction false} TrimStartPadded(left: string, rest: string)
    requires AllSpace(left)
    requires rest != [] && !IsSpace(rest[0])
    ensures TrimStart(left + rest) == rest
  {
    if left != [] {
      assert (left + rest)[1..] == left[1..] + rest;
      TrimStartPadded(left[1..], rest);
    } else {
      assert left + rest == rest;
    }
  }

  lemma {:induction false} TrimEndPadded(rest: string, right: string)
    requires AllSpace(right)
    requires rest != [] && !IsSpace(rest[|rest| - 1])
    ensures TrimEnd(rest + right) == rest
  {
    if right != [] {
      assert (rest + right)[..|rest + right| - 1] == rest + right[..|right| - 1];
      TrimEndPadded(rest, right[..|right| - 1]);
    } else {
      assert rest + right == rest;
    }
  }

  /** A text of white space only trims to the empty string. */
  lemma TrimBlank(s: string)
    requires AllSpace(s)
    ensures Trim(s) == ""
  {
    TrimStartSpec(s);
  }

  // ----- toLowerCase on ASCII letters -----

  function LowerChar(c: char): (r: char)
  {
    if 'A' <= c <= 'Z' then (c as int + 32) as char else c
  }

  /** `String#toLowerCase` for ASCII upper-case letters; other characters are kept. */
  function Lower(s: string): (r: string)
    ensures |r| == |s|
    ensures forall i :: 0 <= i < |s| ==> r[i] == LowerChar(s[i])
  {
    seq(|s|, i requires 0 <= i < |s| => LowerChar(s[i]))
  }

  // ----- numbers -----

  /** The value of a decimal digit (0 for any other character, which the parsers never pass). */
  function DigitValue(c: char): (d: nat)
    ensures d < 10
  {
    if IsDigit(c) then c as int - '0' as int else 0
  }

  /** The length of the run of digits that starts `s`. */
  function DigitRun(s: string): (n: nat)
    ensures n <= |s|
  {
    if s == [] || !IsDigit(s[0]) then 0 else 1 + DigitRun(s[1..])
  }

  /** The run is all digits and stops at the first character that is not one. */
  lemma {:induction false} DigitRunSpec(s: string)
    ensures AllDigits(s[..DigitRun(s)])
    ensures DigitRun(s) < |s| ==> !IsDigit(s[DigitRun(s)])
  {
    if s != [] && IsDigit(s[0]) {
      DigitRunSpec(s[1..]);
      var n := DigitRun(s);
      assert s[..n] == [s[0]] + s[1..][..n - 1];
    }
  }

  /** A run of digits followed by a non-digit is read up to that non-digit. */
  lemma {:induction false} DigitRunAppend(d: string, rest: string)
    requires AllDigits(d)
    requires rest == [] || !IsDigit(rest[0])
    ensures DigitRun(d + rest) == |d|
  {
    if d != [] {
      assert (d + rest)[1..] == d[1..] + rest;
      DigitRunAppend(d[1..], rest);
    } else {
      assert d + rest == rest;
    }
  }

  /** The number a string of decimal digits denotes. */
  function NaturalValue(d: string): nat
  {
    if d == [] then 0 else 10 * NaturalValue(d[..|d| - 1]) + DigitValue(d[|d| - 1])
  }

  /** The value of the digits after a decimal point: always in [0, 1). */
  function FractionValue(d: string): (f: real)
    ensures 0.0 <= f < 1.0
  {
    if d == [] then 0.0 else (DigitValue(d[0]) as real + FractionValue(d[1..])) / 10.0
  }

  /** True when `s` starts a number `parseFloat` can read: a digit, or a point followed by a digit. */
  predicate StartsNumber(s: string)
  {
    (|s| > 0 && IsDigit(s[0])) || (|s| > 1 && s[0] == '.' && IsDigit(s[1]))
  }

  /**
   * The value of the longest prefix of `s` of the form `digits[.digits]` or `.digits`;
   * `None` (JavaScript's NaN) when no number starts there.
   */
  function ParseUnsigned(s: string): Option<real>
  {
    var n := DigitRun(s);
    var whole := NaturalValue(s[..n]) as real;
    if n < |s| && s[n] == '.' then
      var m := DigitRun(s[n + 1..]);
      if n == 0 && m == 0 then None else Some(whole + FractionValue(s[n + 1..][..m]))
    else if n == 0 then None
    else Some(whole)
  }

  /** An unsigned literal is never negative, and it is NaN exactly when no number starts the text. */
  lemma ParseUnsignedSpec(s: string)
    ensures ParseUnsigned(s).Some? ==> ParseUnsigned(s).value >= 0.0
    ensures ParseUnsigned(s).None? <==> !StartsNumber(s)
  {
    var n := DigitRun(s);
    if n < |s| && s[n] == '.' {
      assert s[n + 1..] == [] || DigitRun(s[n + 1..]) == 0 <==> !(|s| > n + 1 && IsDigit(s[n + 1]));
    }
  }

  function Negate(r: Option<real>): Option<real>
  {
    if r.Some? then Some(-r.value) else None
  }

  /** JavaScript's `parseFloat`: skips leading white space, then an optional sign and a decimal literal. */
  function ParseFloat(s: string): (r: Option<real>)
  {
    if s != [] && IsSpace(s[0]) then ParseFloat(s[1..])
    else
      var signed := |s| > 0 && (s[0] == '-' || s[0] == '+');
      var magnitude := ParseUnsigned(if signed then s[1..] else s);
      if |s| > 0 && s[0] == '-' then Negate(magnitude) else magnitude
  }

  /**
   * `parseFloat` reads what follows its leading white space: after an optional sign,
   * the result is NaN exactly when no number starts there, a minus negates the
   * literal and a plus or no sign keeps it.
   */
  lemma {:induction false} ParseFloatSpec(s: string)
    ensures var t := TrimStart(s);
      var body := if |t| > 0 && (t[0] == '-' || t[0] == '+') then t[1..] else t;
      && (ParseFloat(s).None? <==> !StartsNumber(body))
      && (|t| > 0 && t[0] == '-' ==> ParseFloat(s) == Negate(ParseUnsigned(body)))
      && (!(|t| > 0 && t[0] == '-') ==> ParseFloat(s) == ParseUnsigned(body))
  {
    if s != [] && IsSpace(s[0]) {
      ParseFloatSpec(s[1..]);
    } else {
      var body := if |s| > 0 && (s[0] == '-' || s[0] == '+') then s[1..] else s;
      ParseUnsignedSpec(body);
    }
  }

  /**
   * `parseFloat(text.replace(",", "."))`, the amount parser of every screen: the first comma
   * counts as the decimal point. On a text of `[0-9.,]` it never yields a negative number.
   */
  function ParseAmount(text: string): Option<real>
  {
    ParseFloat(ReplaceFirst(text, ',', '.'))
  }

  /** On a text of `[0-9.,]` the amount is never negative: no sign can reach `parseFloat`. */
  lemma ParseAmountNonNegative(text: string)
    requires AllIn(text, AmountChars)
    ensures ParseAmount(text).Some? ==> ParseAmount(text).value >= 0.0
  {
    var t := ReplaceFirst(text, ',', '.');
    ReplaceFirstSpec(text, ',', '.');
    assert |t| == 0 || (t[0] != '-' && t[0] != '+' && !IsSpace(t[0]));
  }

  /** On a text of `[0-9.,]`, the amount is NaN exactly when no number starts once the first comma is a point. */
  lemma ParseAmountNaN(text: string)
    requires AllIn(text, AmountChars)
    ensures ParseAmount(text).None? <==> !StartsNumber(ReplaceFirst(text, ',', '.'))
  {
    var t := ReplaceFirst(text, ',', '.');
    ReplaceFirstSpec(text, ',', '.');
    assert |t| == 0 || (t[0] != '-' && t[0] != '+' && !IsSpace(t[0]));
  }

  /** JavaScript's `parseInt(s)` in base 10: white space, an optional sign, then the leading digits. */
  function ParseInt(s: string): (r: Option<int>)
    ensures AllDigits(s) && r.Some? ==> r.value >= 0
    ensures AllDigits(s) ==> (r.None? <==> s == [])
  {
    var t := TrimStart(s);
    if |t| > 0 && (t[0] == '-' || t[0] == '+') then
      var n := DigitRun(t[1..]);
      if n == 0 then None
      else
        var v: int := NaturalValue(t[1..][..n]);
        if t[0] == '-' then Some(-v) else Some(v)
    else
      var n := DigitRun(t);
      if n == 0 then None else Some(NaturalValue(t[..n]))
  }

  /** On a text of digits, `parseInt` is NaN when it is empty and otherwise the number the digits denote. */
  lemma ParseIntDigits(s: string)
    requires AllDigits(s)
    ensures ParseInt(s) == (if s == [] then None else Some(NaturalValue(s)))
  {
    if s != [] {
      assert TrimStart(s) == s;
      DigitRunAll(s);
      assert s[..DigitRun(s)] == s;
    }
  }

  // ----- the decimal text JavaScript writes for a number -----

  /**
   * A number as `String(x)` / `x.toString()` writes it in positional notation:
   * an optional minus sign, the whole part without leading zeros, and the
   * fraction digits, without trailing zeros, after a point when there are any.
   */
  datatype Literal = Literal(negative: bool, whole: string, fraction: string)
  {
    predicate Valid()
    {
      && whole != [] && AllDigits(whole) && (|whole| == 1 || whole[0] != '0')
      && AllDigits(fraction) && (fraction == [] || fraction[|fraction| - 1] != '0')
    }

    /** The digits without the sign. */
    function Unsigned(): string
    {
      whole + (if fraction == [] then "" else "." + fraction)
    }

    function Show(): string
    {
      (if negative then "-" else "") + Unsigned()
    }

    /** `Math.abs`: the same digits without the sign. */
    function Abs(): (r: Literal)
      ensures Valid() ==> r.Valid() && r.Value() == Magnitude()
    {
      Literal(false, whole, fraction)
    }

    function Magnitude(): real
      requires Valid()
    {
      NaturalValue(whole) as real + FractionValue(fraction)
    }

    function Value(): real
      requires Valid()
    {
      if negative then -Magnitude() else Magnitude()
    }
  }

  /** Reading back what `String(x)` wrote gives `x` again. */
  lemma ParseShow(l: Literal)
    requires l.Valid()
    ensures ParseFloat(l.Show()) == Some(l.Value())
  {
    var body := l.Unsigned();
    ParseUnsignedShow(l);
    assert body[0] == l.whole[0];
    ParseSigned(l.negative, body);
    assert l.Show() == (if l.negative then "-" else "") + body;
  }

  /** `parseFloat` of a text that starts with a digit, behind an optional minus sign. */
  lemma ParseSigned(negative: bool, body: string)
    requires body != [] && IsDigit(body[0])
    ensures ParseFloat((if negative then "-" else "") + body)
         == (if negative then Negate(ParseUnsigned(body)) else ParseUnsigned(body))
  {
    var shown := (if negative then "-" else "") + body;
    assert !IsSpace(shown[0]);
    if negative {
      assert shown[1..] == body;
    } else {
      assert shown == body;
    }
  }

  /** `String(x)` writes no comma. */
  lemma NoCommaInShow(l: Literal)
    requires l.Valid()
    ensures ',' !in l.Show()
  {
    var shown := l.Show();
    assert forall i :: 0 <= i < |l.whole| ==> l.whole[i] != ',';
    assert forall i :: 0 <= i < |shown| ==> shown[i] != ',';
  }

  lemma ParseUnsignedShow(l: Literal)
    requires l.Valid()
    ensures ParseUnsigned(l.Unsigned()) == Some(l.Magnitude())
  {
    if l.fraction == [] {
      assert l.Unsigned() == l.whole;
      ParseUnsignedWhole(l.whole);
    } else {
      assert l.Unsigned() == l.whole + "." + l.fraction;
      ParseUnsignedPoint(l.whole, l.fraction);
    }
  }

  /** An amount typed with a decimal comma, such as "150,00", reads as that decimal number. */
  lemma ParseAmountComma(whole: string, fraction: string)
    requires whole != [] && AllDigits(whole) && fraction != [] && AllDigits(fraction)
    ensures ParseAmount(whole + "," + fraction) == Some(NaturalValue(whole) as real + FractionValue(fraction))
  {
    var typed := whole + "," + fraction;
    var n := |whole|;
    assert typed[n] == ',';
    assert forall j :: 0 <= j < n ==> typed[j] == whole[j] && typed[j] != ',';
    IndexOfSpec(typed, ',');
    assert IndexOf(typed, ',') == n;
    var t := ReplaceFirst(typed, ',', '.');
    ReplaceFirstSpec(typed, ',', '.');
    assert t == whole + "." + fraction;
    ParseUnsignedPoint(whole, fraction);
    ParseSigned(false, t);
    assert "" + t == t;
  }

  lemma ParseUnsignedWhole(digits: string)
    requires digits != [] && AllDigits(digits)
    ensures ParseUnsigned(digits) == Some(NaturalValue(digits) as real)
  {
    DigitRunAll(digits);
    assert digits[..|digits|] == digits;
  }

  lemma ParseUnsignedPoint(digits: string, fraction: string)
    requires digits != [] && AllDigits(digits) && fraction != [] && AllDigits(fraction)
    ensures ParseUnsigned(digits + "." + fraction) == Some(NaturalValue(digits) as real + FractionValue(fraction))
  {
    var s := digits + "." + fraction;
    var n := |digits|;
    assert s == digits + ("." + fraction);
    DigitRunAppend(digits, "." + fraction);
    assert DigitRun(s) == n;
    assert s[..n] == digits;
    assert n < |s| && s[n] == '.';
    assert s[n + 1..] == fraction;
    DigitRunAll(fraction);
    assert s[n + 1..][..DigitRun(s[n + 1..])] == fraction;
  }

  lemma {:induction false} DigitRunAll(d: string)
    requires AllDigits(d)
    ensures DigitRun(d) == |d|
  {
    DigitRunAppend(d, []);
    assert d + [] == d;
  }
}
