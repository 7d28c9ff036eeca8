/** Which texts the JSON reader takes: the grammar of numbers (section 6 of RFC 8259), white space, and refusals. */
module JsonSyntax {
  import opened Prelude
  import opened JsonTree
  import opened JsonText

  predicate Digits(s: string) {
    s != "" && forall i :: 0 <= i < |s| ==> '0' <= s[i] <= '9'
  }

  /** `int`: digits without a leading zero, or a lone zero. */
  predicate IsInt(s: string) {
    Digits(s) && (s[0] == '0' ==> |s| == 1)
  }

  predicate IsFrac(s: string) {
    s == "" || (s[0] == '.' && Digits(s[1..]))
  }

  predicate IsExp(s: string) {
    s == "" || ((s[0] == 'e' || s[0] == 'E')
                && (Digits(s[1..]) || (|s| > 1 && (s[1] == '+' || s[1] == '-') && Digits(s[2..]))))
  }

  /** The text after the sign is an int, a fraction and an exponent, cut at i and j. */
  predicate IsBody(s: string, i: nat, j: nat) {
    i <= j <= |s| && IsInt(s[..i]) && IsFrac(s[i..j]) && IsExp(s[j..])
  }

  function Unsigned(s: string): string {
    if s != "" && s[0] == '-' then s[1..] else s
  }

  ghost predicate IsNumber(s: string) {
    exists i, j :: IsBody(Unsigned(s), i, j)
  }

  lemma {:induction false} DigitsLenExactly(s: string, x: string)
    requires (forall i :: 0 <= i < |s| ==> IsDigit(s[i])) && (x == "" || !IsDigit(x[0]))
    ensures DigitsLen(s + x) == |s|
  {
    AllDigits(s);
    DigitsMore(s, x);
  }

  lemma {:induction false} DigitsLenAll(s: string)
    ensures forall i :: 0 <= i < DigitsLen(s) ==> IsDigit(s[i])
    ensures DigitsLen(s) < |s| ==> !IsDigit(s[DigitsLen(s)])
  {
    if s != "" && IsDigit(s[0]) {
      DigitsLenAll(s[1..]);
      forall i | 0 <= i < DigitsLen(s) ensures IsDigit(s[i]) {
        if i > 0 { assert s[i] == s[1..][i - 1]; }
      }
    }
  }

  lemma FracPart(s: string)
    requires FracLen(s).Some?
    ensures IsFrac(s[..FracLen(s).value])
  {
    if s != "" && s[0] == '.' {
      var n := DigitsLen(s[1..]);
      DigitsLenAll(s[1..]);
      assert s[..1 + n][1..] == s[1..][..n];
    }
  }

  /** Text that starts neither a fraction nor more digits. */
  predicate Stops(x: string) {
    x == "" || (!IsDigit(x[0]) && x[0] != '.')
  }

  lemma FracExactly(f: string, x: string)
    requires IsFrac(f) && Stops(x)
    ensures FracLen(f + x) == Some(|f|)
  {
    if f == "" {
      assert f + x == x;
    } else {
      assert (f + x)[1..] == f[1..] + x;
      DigitsLenExactly(f[1..], x);
    }
  }

  lemma ExpExactly(e: string)
    ensures ExpLen(e) == Some(|e|) <==> IsExp(e)
  {
    if e != "" && (e[0] == 'e' || e[0] == 'E') {
      var sign := ExpSignLen(e[1..]);
      var rest := e[1 + sign..];
      DigitsLenAll(rest);
      assert e[1..][sign..] == rest;
      if Digits(rest) { AllDigits(rest); }
      assert Digits(rest) <==> DigitsLen(rest) == |rest| != 0;
    }
  }

  lemma IntExactly(a: string, x: string)
    requires IsInt(a) && (x == "" || !IsDigit(x[0]))
    ensures IntLen(a + x) == |a|
  {
    DigitsLenExactly(a, x);
  }

  lemma IntPart(s: string)
    requires IntLen(s) > 0
    ensures IsInt(s[..IntLen(s)])
  {
    DigitsLenAll(s);
  }

  /** The reader takes a whole unsigned text exactly when it can be cut into int, fraction and exponent. */
  lemma BodyExactly(s: string)
    ensures BodyShape(s).Some? && BodyShape(s).value.0 == |s| <==> exists i, j :: IsBody(s, i, j)
  {
    if BodyShape(s).Some? && BodyShape(s).value.0 == |s| {
      BodyCut(s);
    }
    if i, j :| IsBody(s, i, j) {
      CutRead(s, i, j);
    }
  }

  lemma BodyCut(s: string)
    requires BodyShape(s).Some? && BodyShape(s).value.0 == |s|
    ensures exists i, j :: IsBody(s, i, j)
  {
    var i := IntLen(s);
    var f := FracLen(s[i..]).value;
    IntPart(s);
    FracPart(s[i..]);
    assert s[i..][..f] == s[i..i + f] && s[i..][f..] == s[i + f..];
    ExpExactly(s[i + f..]);
    assert IsBody(s, i, i + f);
  }

  lemma TailRead(t: string, f: nat)
    requires f <= |t| && IsFrac(t[..f]) && IsExp(t[f..])
    ensures TailShape(t).Some? && TailShape(t).value.0 == |t|
    ensures t == "" || !IsDigit(t[0])
  {
    assert t == t[..f] + t[f..];
    FracExactly(t[..f], t[f..]);
    ExpExactly(t[f..]);
  }

  lemma BodyRead(s: string, i: nat)
    requires 0 < i <= |s| && IntLen(s) == i && TailShape(s[i..]).Some? && TailShape(s[i..]).value.0 == |s[i..]|
    ensures BodyShape(s).Some? && BodyShape(s).value.0 == |s|
  {
  }

  lemma IntRead(s: string, i: nat)
    requires i <= |s| && IsInt(s[..i]) && (s[i..] == "" || !IsDigit(s[i..][0]))
    ensures IntLen(s) == i
  {
    assert s == s[..i] + s[i..];
    IntExactly(s[..i], s[i..]);
  }

  lemma CutRead(s: string, i: nat, j: nat)
    requires IsBody(s, i, j)
    ensures BodyShape(s).Some? && BodyShape(s).value.0 == |s|
  {
    assert s[i..][..j - i] == s[i..j] && s[i..][j - i..] == s[j..];
    TailRead(s[i..], j - i);
    IntRead(s, i);
    BodyRead(s, i);
  }

  lemma ShapeExactly(s: string)
    ensures NumberShape(s).Some? && NumberShape(s).value.0 == |s| <==> IsNumber(s)
  {
    BodyExactly(Unsigned(s));
  }

  /** A whole text is read as a number exactly when the grammar makes it one. */
  lemma NumberExactly(s: string)
    ensures ParseNumber(s).Some? && ParseNumber(s).value.1 == "" <==> IsNumber(s)
  {
    ShapeExactly(s);
    if NumberShape(s).Some? { assert |s[NumberShape(s).value.0..]| == |s| - NumberShape(s).value.0; }
  }

  // --------------------------------------------------- white space and controls

  predicate Blank(w: string) {
    forall i :: 0 <= i < |w| ==> w[i] in {' ', '\t', '\n', '\r'}
  }

  lemma {:induction false} BlankSkipped(w: string, s: string)
    requires Blank(w)
    ensures SkipWs(w + s) == SkipWs(s)
  {
    if w == "" {
      assert w + s == s;
    } else {
      BlankSkipped(w[1..], s);
      assert (w + s)[1..] == w[1..] + s;
    }
  }

  lemma {:induction false} OnlyBlankSkipped(s: string)
    ensures SkipWs(s) == "" <==> Blank(s)
  {
    if s != "" {
      OnlyBlankSkipped(s[1..]);
      assert s == [s[0]] + s[1..];
    }
  }

  lemma BlankValue(w: string, s: string)
    requires Blank(w)
    ensures ParseValue(w + s) == ParseValue(s)
  {
    BlankSkipped(w, s);
  }

  /** Blanks around a JSON text make no difference, and nothing else may surround it. */
  lemma BlanksIgnored(w: string, s: string, x: string)
    requires Blank(w) && ParseText(s).Some? && Ends(x)
    ensures ParseText(w + s + x) == if Blank(x) then ParseText(s) else None
  {
    BlankValue(w, s + x);
    assert w + s + x == w + (s + x);
    ValueMore(s, x);
    var rest := ParseValue(s).value.1;
    OnlyBlankSkipped(rest);
    OnlyBlankSkipped(rest + x);
    assert (rest + x)[|rest|..] == x;
    assert Blank(rest + x) <==> Blank(x);
  }

  /** A control character ends no string and stands in none: it has to be escaped. */
  lemma {:induction false} ControlRefused(s: string, c: char, t: string)
    requires Plain(s) && c < ' '
    ensures ParseString(s + ([c] + t)).None?
  {
    var rest := [c] + t;
    if s == "" {
      assert s + rest == rest;
    } else {
      ControlRefused(s[1..], c, t);
      assert (s + rest)[1..] == s[1..] + rest;
    }
  }
}
