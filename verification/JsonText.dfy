/**
  A reader of JSON text by the grammar of sections 2 to 7 of RFC 8259. Objects
  become maps (of duplicate names the last wins, as in Dart's jsonDecode).
 */
module JsonText {
  import opened Prelude
  import opened JsonTree

  predicate IsWs(c: char) {
    c == ' ' || c == '\t' || c == '\n' || c == '\r'
  }

  predicate IsDigit(c: char) {
    '0' <= c <= '9'
  }

  function SkipWs(s: string): (r: string)
    ensures |r| <= |s|
  {
    if s != "" && IsWs(s[0]) then SkipWs(s[1..]) else s
  }

  // ------------------------------------------------------------------- numbers

  function DigitsLen(s: string): (n: nat)
    ensures n <= |s|
  {
    if s != "" && IsDigit(s[0]) then 1 + DigitsLen(s[1..]) else 0
  }

  function SignLen(s: string): nat {
    if s != "" && s[0] == '-' then 1 else 0
  }

  /** The length of the integer part: a lone zero, or digits not starting with zero. */
  function IntLen(s: string): (n: nat)
    ensures n <= |s|
  {
    if s != "" && s[0] == '0' then 1 else DigitsLen(s)
  }

  /** The length of a fraction; None when the point has no digit after it. */
  function FracLen(s: string): (n: Option<nat>)
    ensures n.Some? ==> n.value <= |s|
  {
    if s == "" || s[0] != '.' then Some(0)
    else if DigitsLen(s[1..]) == 0 then None
    else Some(1 + DigitsLen(s[1..]))
  }

  function ExpSignLen(s: string): nat {
    if s != "" && (s[0] == '+' || s[0] == '-') then 1 else 0
  }

  function ExpLen(s: string): (n: Option<nat>)
    ensures n.Some? ==> n.value <= |s|
  {
    if s == "" || (s[0] != 'e' && s[0] != 'E') then Some(0)
    else
      var sign := ExpSignLen(s[1..]);
      var digits := DigitsLen(s[1 + sign..]);
      if digits == 0 then None else Some(1 + sign + digits)
  }

  function NatValue(s: string): nat {
    if s == "" || !IsDigit(s[|s| - 1]) then 0
    else 10 * NatValue(s[..|s| - 1]) + (s[|s| - 1] - '0') as nat
  }

  function NumberOf(lexeme: string, integral: bool): Json {
    if integral && lexeme != "-0"
    then JNum(if SignLen(lexeme) == 1 then 0 - NatValue(lexeme[1..]) else NatValue(lexeme))
    else JReal(lexeme)
  }

  /** Fraction and exponent: their length, and whether both are absent. */
  function TailShape(s: string): (r: Option<(nat, bool)>)
    ensures r.Some? ==> r.value.0 <= |s|
  {
    var f := FracLen(s);
    if f.None? then None else
    var e := ExpLen(s[f.value..]);
    if e.None? then None else Some((f.value + e.value, f.value == 0 && e.value == 0))
  }

  /** A number without its sign. */
  function BodyShape(s: string): (r: Option<(nat, bool)>)
    ensures r.Some? ==> 0 < r.value.0 <= |s|
  {
    var i := IntLen(s);
    if i == 0 || TailShape(s[i..]).None? then None
    else Some((i + TailShape(s[i..]).value.0, TailShape(s[i..]).value.1))
  }

  /** The length of the number at the front, and whether it is an integer numeral. */
  function NumberShape(s: string): (r: Option<(nat, bool)>)
    ensures r.Some? ==> 0 < r.value.0 <= |s|
  {
    if SignLen(s) == 0 then BodyShape(s)
    else
      var b := BodyShape(s[1..]);
      if b.None? then None else Some((1 + b.value.0, b.value.1))
  }

  function ParseNumber(s: string): (r: Option<(Json, string)>)
    ensures r.Some? ==> |r.value.1| < |s|
  {
    var shape := NumberShape(s);
    if shape.None? then None
    else Some((NumberOf(s[..shape.value.0], shape.value.1), s[shape.value.0..]))
  }

  // ------------------------------------------------------------------- strings

  function HexValue(c: char): Option<nat> {
    if '0' <= c <= '9' then Some((c - '0') as nat)
    else if 'a' <= c <= 'f' then Some(10 + (c - 'a') as nat)
    else if 'A' <= c <= 'F' then Some(10 + (c - 'A') as nat)
    else None
  }

  function Hex4(s: string): (n: Option<nat>)
    ensures n.Some? ==> |s| >= 4 && n.value < 0x10000
  {
    if |s| < 4 then None else
    match (HexValue(s[0]), HexValue(s[1]), HexValue(s[2]), HexValue(s[3]))
    case (Some(a), Some(b), Some(c), Some(d)) =>
      var n := ((a * 16 + b) * 16 + c) * 16 + d;
      if n < 0x10000 then Some(n) else None
    case _ => None
  }

  /** The character after a backslash, and how much text it takes; a surrogate pair is one character. */
  function Escape(s: string): (r: Option<(char, nat)>)
    ensures r.Some? ==> 1 <= r.value.1 <= |s|
  {
    if s == "" then None
    else if s[0] == '"' || s[0] == '\\' || s[0] == '/' then Some((s[0], 1))
    else if s[0] == 'b' then Some(('\U{8}', 1))
    else if s[0] == 'f' then Some(('\U{C}', 1))
    else if s[0] == 'n' then Some(('\n', 1))
    else if s[0] == 'r' then Some(('\r', 1))
    else if s[0] == 't' then Some(('\t', 1))
    else if s[0] != 'u' || Hex4(s[1..]).None? then None
    else UnicodeEscape(s, Hex4(s[1..]).value)
  }

  function UnicodeEscape(s: string, n: nat): (r: Option<(char, nat)>)
    requires |s| >= 5 && n < 0x10000
    ensures r.Some? ==> 1 <= r.value.1 <= |s|
  {
    if n < 0xD800 || 0xE000 <= n then Some((n as char, 5))
    else if n < 0xDC00 && |s| >= 11 && s[5] == '\\' && s[6] == 'u' && Hex4(s[7..]).Some?
            && 0xDC00 <= Hex4(s[7..]).value < 0xE000
    then Some(((0x10000 + (n - 0xD800) * 0x400 + (Hex4(s[7..]).value - 0xDC00)) as char, 11))
    else None
  }

  /** A string from after its opening quotation mark. */
  function ParseString(s: string): (r: Option<(string, string)>)
    ensures r.Some? ==> |r.value.1| < |s|
    decreases |s|
  {
    if s == "" || s[0] < ' ' then None
    else if s[0] == '"' then Some(("", s[1..]))
    else if s[0] == '\\' then
      var e := Escape(s[1..]);
      if e.None? then None else
      var rest := ParseString(s[1 + e.value.1..]);
      if rest.None? then None else Some(([e.value.0] + rest.value.0, rest.value.1))
    else
      var rest := ParseString(s[1..]);
      if rest.None? then None else Some(([s[0]] + rest.value.0, rest.value.1))
  }

  // -------------------------------------------------------------------- values

  /** One of the three literal names. */
  function Keyword(t: string, word: string, v: Json): (r: Option<(Json, string)>)
    ensures r.Some? ==> |r.value.1| == |t| - |word|
  {
    if word <= t then Some((v, t[|word|..])) else None
  }

  function ParseValue(s: string): (r: Option<(Json, string)>)
    ensures r.Some? ==> |r.value.1| < |s|
    decreases |s|, 1
  {
    var t := SkipWs(s);
    if t == "" then None
    else if t[0] == '{' then ParseObject(t[1..])
    else if t[0] == '[' then ParseArray(t[1..])
    else if t[0] == '"' then
      var str := ParseString(t[1..]);
      if str.None? then None else Some((JStr(str.value.0), str.value.1))
    else if t[0] == 't' then Keyword(t, "true", JBool(true))
    else if t[0] == 'f' then Keyword(t, "false", JBool(false))
    else if t[0] == 'n' then Keyword(t, "null", JNull)
    else ParseNumber(t)
  }

  function ParseArray(s: string): (r: Option<(Json, string)>)
    ensures r.Some? ==> |r.value.1| < |s|
    decreases |s|, 3
  {
    var t := SkipWs(s);
    if t != "" && t[0] == ']' then Some((JArr([]), t[1..])) else
    var items := ParseElements(s);
    if items.None? then None else Some((JArr(items.value.0), items.value.1))
  }

  /** What follows a list entry: a comma (true) or the closing bracket, and the text after it. */
  function Separator(s: string, closer: char): (r: Option<(bool, string)>)
    ensures r.Some? ==> |r.value.1| < |s|
  {
    var t := SkipWs(s);
    if t == "" || (t[0] != closer && t[0] != ',') then None else Some((t[0] != closer, t[1..]))
  }

  function ParseElements(s: string): (r: Option<(seq<Json>, string)>)
    ensures r.Some? ==> |r.value.1| < |s|
    decreases |s|, 2
  {
    var v := ParseValue(s);
    if v.None? then None else
    var sep := Separator(v.value.1, ']');
    if sep.None? then None
    else if !sep.value.0 then Some(([v.value.0], sep.value.1))
    else
      var more := ParseElements(sep.value.1);
      if more.None? then None else Some(([v.value.0] + more.value.0, more.value.1))
  }

  function ParseObject(s: string): (r: Option<(Json, string)>)
    ensures r.Some? ==> |r.value.1| < |s|
    decreases |s|, 3
  {
    var t := SkipWs(s);
    if t != "" && t[0] == '}' then Some((JObj(map[]), t[1..])) else
    var fields := ParseMembers(s);
    if fields.None? then None else Some((JObj(fields.value.0), fields.value.1))
  }

  /** A member's name, up to and including its colon. */
  function ParseName(s: string): (r: Option<(string, string)>)
    ensures r.Some? ==> |r.value.1| < |s|
  {
    var t := SkipWs(s);
    if t == "" || t[0] != '"' then None else
    var name := ParseString(t[1..]);
    if name.None? then None else
    var u := SkipWs(name.value.1);
    if u == "" || u[0] != ':' then None else Some((name.value.0, u[1..]))
  }

  function ParseMembers(s: string): (r: Option<(map<string, Json>, string)>)
    ensures r.Some? ==> |r.value.1| < |s|
    decreases |s|, 2
  {
    var name := ParseName(s);
    if name.None? then None else
    var v := ParseValue(name.value.1);
    if v.None? then None else
    var sep := Separator(v.value.1, '}');
    if sep.None? then None
    else if !sep.value.0 then Some((map[name.value.0 := v.value.0], sep.value.1))
    else
      var more := ParseMembers(sep.value.1);
      if more.None? then None else Some((map[name.value.0 := v.value.0] + more.value.0, more.value.1))
  }

  /** The value of a whole JSON text. */
  function ParseText(s: string): Option<Json> {
    var v := ParseValue(s);
    if v.Some? && SkipWs(v.value.1) == "" then Some(v.value.0) else None
  }

  /** Free of quotation marks, backslashes and control characters. */
  predicate Plain(s: string) {
    forall i :: 0 <= i < |s| ==> s[i] != '"' && s[i] != '\\' && s[i] >= ' '
  }

  // --------------------------------------------------- reading inside more text

  /** Text that cannot continue a number. */
  predicate Ends(x: string) {
    x == "" || !(IsDigit(x[0]) || x[0] == '.' || x[0] == 'e' || x[0] == 'E' || x[0] == '+' || x[0] == '-')
  }

  lemma {:induction false} SkipWsMore(s: string, x: string)
    requires SkipWs(s) != ""
    ensures SkipWs(s + x) == SkipWs(s) + x
  {
    if IsWs(s[0]) {
      assert (s + x)[1..] == s[1..] + x;
      SkipWsMore(s[1..], x);
    }
  }

  /** White space before other text is skipped. */
  lemma {:induction false} SkipWsAll(s: string, x: string)
    requires SkipWs(s) == "" && x != "" && !IsWs(x[0])
    ensures SkipWs(s + x) == x
  {
    if s == "" {
      assert s + x == x;
    } else {
      assert (s + x)[1..] == s[1..] + x;
      SkipWsAll(s[1..], x);
    }
  }

  lemma {:induction false} DigitsMore(s: string, x: string)
    requires x == "" || !IsDigit(x[0])
    ensures DigitsLen(s + x) == DigitsLen(s)
  {
    if s == "" {
      assert s + x == x;
    } else if IsDigit(s[0]) {
      assert (s + x)[1..] == s[1..] + x;
      DigitsMore(s[1..], x);
    }
  }

  lemma FracMore(s: string, x: string)
    requires Ends(x)
    ensures FracLen(s + x) == FracLen(s)
  {
    if s == "" {
      assert s + x == x;
    } else {
      assert (s + x)[1..] == s[1..] + x;
      DigitsMore(s[1..], x);
    }
  }

  lemma ExpMore(s: string, x: string)
    requires Ends(x)
    ensures ExpLen(s + x) == ExpLen(s)
  {
    if s == "" {
      assert s + x == x;
    } else if s[0] == 'e' || s[0] == 'E' {
      assert (s + x)[1..] == s[1..] + x;
      if s[1..] == "" { assert s[1..] + x == x; }
      var sign := ExpSignLen(s[1..]);
      assert ExpSignLen((s + x)[1..]) == sign;
      assert (s + x)[1 + sign..] == s[1 + sign..] + x;
      DigitsMore(s[1 + sign..], x);
    }
  }

  lemma SplitMore(s: string, x: string, n: nat)
    requires n <= |s|
    ensures (s + x)[..n] == s[..n] && (s + x)[n..] == s[n..] + x
  {
  }

  lemma TailMore(s: string, x: string)
    requires Ends(x)
    ensures TailShape(s + x) == TailShape(s)
  {
    FracMore(s, x);
    if FracLen(s).Some? {
      var f := FracLen(s).value;
      SplitMore(s, x, f);
      ExpMore(s[f..], x);
    }
  }

  lemma BodyMore(s: string, x: string)
    requires Ends(x) && s != ""
    ensures BodyShape(s + x) == BodyShape(s)
  {
    IntMore(s, x);
    var i := IntLen(s);
    assert (s + x)[i..] == s[i..] + x by { SplitMore(s, x, i); }
    TailMore(s[i..], x);
  }

  lemma IntMore(s: string, x: string)
    requires Ends(x) && s != ""
    ensures IntLen(s + x) == IntLen(s)
  {
    DigitsMore(s, x);
    assert (s + x)[0] == s[0];
  }

  lemma UnsignedShapeMore(s: string, x: string)
    requires Ends(x) && s != "" && SignLen(s) == 0
    ensures NumberShape(s + x) == NumberShape(s)
  {
    BodyMore(s, x);
    assert SignLen(s + x) == 0;
  }

  lemma SignedShapeMore(s: string, x: string)
    requires Ends(x) && SignLen(s) == 1 && |s| > 1
    ensures NumberShape(s + x) == NumberShape(s)
  {
    SplitMore(s, x, 1);
    BodyMore(s[1..], x);
    assert SignLen(s + x) == 1;
  }

  lemma ShapeMore(s: string, x: string)
    requires Ends(x) && NumberShape(s).Some?
    ensures NumberShape(s + x) == NumberShape(s)
  {
    if SignLen(s) == 0 {
      UnsignedShapeMore(s, x);
    } else {
      assert BodyShape(s[1..]).Some?;
      SignedShapeMore(s, x);
    }
  }

  lemma NumberMore(s: string, x: string)
    requires Ends(x) && ParseNumber(s).Some?
    ensures ParseNumber(s + x) == Some((ParseNumber(s).value.0, ParseNumber(s).value.1 + x))
  {
    ShapeMore(s, x);
    var n := NumberShape(s).value.0;
    SplitMore(s, x, n);
    var t := s + x;
    assert t[..n] == s[..n] && t[n..] == s[n..] + x;
  }

  lemma Hex4More(s: string, x: string)
    requires Hex4(s).Some?
    ensures Hex4(s + x) == Hex4(s)
  {
  }

  lemma EscapeMore(s: string, x: string)
    requires Escape(s).Some?
    ensures Escape(s + x) == Escape(s)
  {
    if s[0] == 'u' {
      assert (s + x)[1..] == s[1..] + x;
      Hex4More(s[1..], x);
      if |s| >= 11 {
        assert (s + x)[7..] == s[7..] + x;
        if Hex4(s[7..]).Some? { Hex4More(s[7..], x); }
      }
    }
  }

  lemma {:induction false} StringMore(s: string, x: string)
    requires ParseString(s).Some?
    ensures ParseString(s + x) == Some((ParseString(s).value.0, ParseString(s).value.1 + x))
    decreases |s|
  {
    if s[0] == '\\' {
      StringMore(s[1 + Escape(s[1..]).value.1..], x);
      EscapedMore(s, x);
    } else {
      assert (s + x)[0] == s[0] && (s + x)[1..] == s[1..] + x;
      if s[0] != '"' { StringMore(s[1..], x); }
    }
  }

  /** An escape is read the same, and the string after it by hypothesis. */
  lemma EscapedMore(s: string, x: string)
    requires s != "" && s[0] == '\\' && Escape(s[1..]).Some?
    requires var rest := s[1 + Escape(s[1..]).value.1..];
             && ParseString(rest).Some?
             && ParseString(rest + x) == Some((ParseString(rest).value.0, ParseString(rest).value.1 + x))
    ensures ParseString(s).Some?
    ensures ParseString(s + x) == Some((ParseString(s).value.0, ParseString(s).value.1 + x))
  {
    var e := Escape(s[1..]).value;
    var t := s + x;
    EscapeMore(s[1..], x);
    assert t[0] == s[0] && t[1..] == s[1..] + x && t[1 + e.1..] == s[1 + e.1..] + x;
  }

  lemma NameMore(s: string, x: string)
    requires ParseName(s).Some?
    ensures ParseName(s + x) == Some((ParseName(s).value.0, ParseName(s).value.1 + x))
  {
    var t := SkipWs(s);
    SkipWsMore(s, x);
    assert (t + x)[1..] == t[1..] + x;
    StringMore(t[1..], x);
    var r := ParseString(t[1..]).value.1;
    SkipWsMore(r, x);
    assert (SkipWs(r) + x)[1..] == SkipWs(r)[1..] + x;
  }

  /** A value reads the same with more text after it, provided that text cannot continue a number. */
  lemma {:induction false} ValueMore(s: string, x: string)
    requires Ends(x) && ParseValue(s).Some?
    ensures ParseValue(s + x) == Some((ParseValue(s).value.0, ParseValue(s).value.1 + x))
    decreases |s|, 1
  {
    var t := SkipWs(s);
    SkipWsMore(s, x);
    assert SkipWs(s + x) == t + x;
    assert (t + x)[1..] == t[1..] + x;
    if t[0] == '{' {
      ObjectMore(t[1..], x);
    } else if t[0] == '[' {
      ArrayMore(t[1..], x);
    } else if t[0] == '"' {
      StringMore(t[1..], x);
    } else if t[0] == 't' {
      KeywordMore(t, "true", JBool(true), x);
    } else if t[0] == 'f' {
      KeywordMore(t, "false", JBool(false), x);
    } else if t[0] == 'n' {
      KeywordMore(t, "null", JNull, x);
    } else {
      NumberMore(t, x);
    }
  }

  lemma KeywordMore(t: string, word: string, v: Json, x: string)
    requires Keyword(t, word, v).Some?
    ensures Keyword(t + x, word, v) == Some((v, Keyword(t, word, v).value.1 + x))
  {
    SplitMore(t, x, |word|);
  }

  lemma SeparatorMore(s: string, closer: char, x: string)
    requires Separator(s, closer).Some?
    ensures Separator(s + x, closer) == Some((Separator(s, closer).value.0, Separator(s, closer).value.1 + x))
  {
    var t := SkipWs(s);
    SkipWsMore(s, x);
    assert (t + x)[1..] == t[1..] + x;
  }

  lemma {:induction false} ArrayMore(s: string, x: string)
    requires Ends(x) && ParseArray(s).Some?
    ensures ParseArray(s + x) == Some((ParseArray(s).value.0, ParseArray(s).value.1 + x))
    decreases |s|, 3
  {
    var t := SkipWs(s);
    if t != "" && t[0] == ']' {
      SkipWsMore(s, x);
      assert (t + x)[1..] == t[1..] + x;
    } else {
      assert ParseElements(s).Some? && ParseValue(s).Some?;
      SkipWsMore(s, x);
      ElementsMore(s, x);
    }
  }

  lemma {:induction false} ElementsMore(s: string, x: string)
    requires Ends(x) && ParseElements(s).Some?
    ensures ParseElements(s + x) == Some((ParseElements(s).value.0, ParseElements(s).value.1 + x))
    decreases |s|, 2
  {
    ValueMore(s, x);
    var r := ParseValue(s).value.1;
    SeparatorMore(r, ']', x);
    var sep := Separator(r, ']').value;
    if sep.0 { ElementsMore(sep.1, x); }
  }

  lemma {:induction false} ObjectMore(s: string, x: string)
    requires Ends(x) && ParseObject(s).Some?
    ensures ParseObject(s + x) == Some((ParseObject(s).value.0, ParseObject(s).value.1 + x))
    decreases |s|, 3
  {
    var t := SkipWs(s);
    assert t != "";
    SkipWsMore(s, x);
    if t[0] == '}' {
      assert (t + x)[1..] == t[1..] + x;
    } else {
      MembersMore(s, x);
    }
  }

  lemma {:induction false} MembersMore(s: string, x: string)
    requires Ends(x) && ParseMembers(s).Some?
    ensures ParseMembers(s + x) == Some((ParseMembers(s).value.0, ParseMembers(s).value.1 + x))
    decreases |s|, 2
  {
    NameMore(s, x);
    var body := ParseName(s).value.1;
    ValueMore(body, x);
    var r := ParseValue(body).value.1;
    SeparatorMore(r, '}', x);
    var sep := Separator(r, '}').value;
    if sep.0 { MembersMore(sep.1, x); }
  }

  // ----------------------------------------------------------- decimal numerals

  lemma {:induction false} AllDigits(s: string)
    requires forall i :: 0 <= i < |s| ==> IsDigit(s[i])
    ensures DigitsLen(s) == |s|
  {
    if s != "" { AllDigits(s[1..]); }
  }

  /** A printed natural is all digits and reads back as itself. */
  lemma {:induction false} DecimalDigits(n: nat)
    ensures forall i :: 0 <= i < |Decimal(n)| ==> IsDigit(Decimal(n)[i])
    ensures Decimal(n) != "" && NatValue(Decimal(n)) == n
  {
    var d := Decimal(n);
    if n < 10 {
      assert d[..0] == "";
    } else {
      DecimalDigits(n / 10);
      assert d[..|d| - 1] == Decimal(n / 10);
    }
  }

  lemma NaturalBody(n: nat)
    ensures BodyShape(Decimal(n)) == Some((|Decimal(n)|, true))
  {
    var d := Decimal(n);
    DecimalDigits(n);
    AllDigits(d);
    if d[0] == '0' { LeadingZero(n); }
    assert IntLen(d) == |d|;
    assert d[|d|..] == "";
    assert TailShape("") == Some((0, true));
  }

  lemma NaturalNumber(n: nat)
    ensures ParseNumber(Decimal(n)) == Some((JNum(n), ""))
  {
    var d := Decimal(n);
    NaturalBody(n);
    DecimalDigits(n);
    assert SignLen(d) == 0 && NumberShape(d) == Some((|d|, true));
    assert d[|d|..] == "" && d[..|d|] == d && d != "-0";
  }

  /** A printed natural is read as that number, up to text that ends it. */
  lemma NaturalReads(n: nat, x: string)
    requires Ends(x)
    ensures ParseNumber(Decimal(n) + x) == Some((JNum(n), x))
  {
    NaturalNumber(n);
    NumberMore(Decimal(n), x);
    assert "" + x == x;
  }

  /** Only zero is printed with a leading zero. */
  lemma {:induction false} LeadingZero(n: nat)
    requires Decimal(n)[0] == '0'
    ensures n == 0
  {
    if n >= 10 {
      assert Decimal(n)[0] == Decimal(n / 10)[0] by { DecimalDigits(n / 10); }
      LeadingZero(n / 10);
      assert false;
    }
  }

  // ------------------------------------------------------------ quoted strings

  function HexDigit(d: nat): char
    requires d < 16
  {
    "0123456789abcdef"[d]
  }

  /** The letter of a character's two-character escape, for those that have one and need one. */
  function ShortEscape(c: char): Option<char> {
    if c == '"' || c == '\\' then Some(c)
    else if c == '\U{8}' then Some('b')
    else if c == '\U{C}' then Some('f')
    else if c == '\n' then Some('n')
    else if c == '\r' then Some('r')
    else if c == '\t' then Some('t')
    else None
  }

  /** One character inside a JSON string: a short escape, \u for other control characters, else itself. */
  function QuoteChar(c: char): string {
    if ShortEscape(c).Some? then ['\\', ShortEscape(c).value]
    else if c < ' ' then ['\\', 'u', '0', '0', HexDigit(c as nat / 16), HexDigit(c as nat % 16)]
    else [c]
  }

  function QuoteTail(s: string): string {
    if s == "" then "\"" else QuoteChar(s[0]) + QuoteTail(s[1..])
  }

  /** A string as JSON text. */
  function Quote(s: string): string {
    "\"" + QuoteTail(s)
  }

  lemma HexReads(d: nat)
    requires d < 16
    ensures HexValue(HexDigit(d)) == Some(d)
  {
  }

  lemma ControlReads(c: char, t: string)
    requires c < ' '
    ensures Escape(['u', '0', '0', HexDigit(c as nat / 16), HexDigit(c as nat % 16)] + t) == Some((c, 5))
  {
    var s := ['u', '0', '0', HexDigit(c as nat / 16), HexDigit(c as nat % 16)] + t;
    HexReads(c as nat / 16);
    HexReads(c as nat % 16);
    assert s[1..][0] == '0' && s[1..][1] == '0' && s[1..][2] == s[3] && s[1..][3] == s[4];
    assert Hex4(s[1..]) == Some(c as nat);
  }

  lemma ShortEscapeReads(c: char, t: string)
    requires ShortEscape(c).Some?
    ensures Escape([ShortEscape(c).value] + t) == Some((c, 1))
  {
    assert ([ShortEscape(c).value] + t)[0] == ShortEscape(c).value;
  }

  lemma LongEscapeReads(c: char, t: string)
    requires ParseString(t).Some? && c < ' '
    ensures ParseString(['\\', 'u', '0', '0', HexDigit(c as nat / 16), HexDigit(c as nat % 16)] + t)
         == Some(([c] + ParseString(t).value.0, ParseString(t).value.1))
  {
    var q := ['u', '0', '0', HexDigit(c as nat / 16), HexDigit(c as nat % 16)];
    var s := ['\\', 'u', '0', '0', HexDigit(c as nat / 16), HexDigit(c as nat % 16)] + t;
    ControlReads(c, t);
    assert s[1..] == q + t && s[6..] == t;
  }

  /** A quoted character is read as that character, and reading goes on after it. */
  lemma QuotedCharReads(c: char, t: string)
    requires ParseString(t).Some?
    ensures ParseString(QuoteChar(c) + t) == Some(([c] + ParseString(t).value.0, ParseString(t).value.1))
  {
    var s := QuoteChar(c) + t;
    if ShortEscape(c).Some? {
      ShortEscapeReads(c, t);
      assert s[1..] == [ShortEscape(c).value] + t && s[2..] == t;
    } else if c < ' ' {
      LongEscapeReads(c, t);
    } else {
      assert s[0] == c && s[1..] == t;
    }
  }

  /** Every string survives being quoted and read back, whatever text follows it. */
  lemma {:induction false} QuoteReads(s: string, x: string)
    ensures ParseString(QuoteTail(s) + x) == Some((s, x))
    decreases |s|
  {
    if s == "" {
      assert ("\"" + x)[1..] == x;
    } else {
      QuoteReads(s[1..], x);
      QuotedCharReads(s[0], QuoteTail(s[1..]) + x);
      Associate(QuoteChar(s[0]), QuoteTail(s[1..]), x);
      assert [s[0]] + s[1..] == s;
    }
  }

  /** A quoted string is a JSON text for that string. */
  lemma QuoteIsText(s: string)
    ensures ParseText(Quote(s)) == Some(JStr(s))
  {
    QuoteReads(s, "");
    assert QuoteTail(s) + "" == QuoteTail(s);
    var q := Quote(s);
    assert SkipWs(q) == q && q[1..] == QuoteTail(s);
  }

  // ------------------------------------------------------------ other readings

  lemma LiteralsRead()
    ensures ParseText("true") == Some(JBool(true)) && ParseText("false") == Some(JBool(false))
    ensures ParseText("null") == Some(JNull)
  {
    assert SkipWs("true") == "true" && "true"[4..] == "";
    assert SkipWs("false") == "false" && "false"[5..] == "";
    assert SkipWs("null") == "null" && "null"[4..] == "";
  }

  /** A text that is read whole as a number is a JSON text. */
  lemma NumberIsText(s: string)
    requires ParseNumber(s).Some? && ParseNumber(s).value.1 == "" && (s[0] == '-' || IsDigit(s[0]))
    ensures ParseText(s) == Some(ParseNumber(s).value.0)
  {
    ReadAsNumber(s);
    assert SkipWs("") == "";
  }

  lemma ReadAsNumber(s: string)
    requires s != "" && (s[0] == '-' || IsDigit(s[0]))
    ensures ParseValue(s) == ParseNumber(s)
  {
    var t := SkipWs(s);
    assert t == s;
    var number := ParseNumber(t);
    assert t[0] !in {'{', '[', '"', 't', 'f', 'n'};
    assert ParseValue(s) == number;
  }

  /** A minus sign negates; minus zero is not the integer 0. */
  lemma NegativeReads(n: nat)
    ensures ParseText("-" + Decimal(n)) == Some(if n == 0 then JReal("-0") else JNum(0 - n))
  {
    NegativeNumber(n);
    NumberIsText("-" + Decimal(n));
  }

  lemma NegativeNumber(n: nat)
    ensures ParseNumber("-" + Decimal(n)) == Some((if n == 0 then JReal("-0") else JNum(0 - n), ""))
  {
    var s := "-" + Decimal(n);
    NegativeShape(n);
    assert s[..|s|] == s && s[|s|..] == "" && s[1..] == Decimal(n);
    if n == 0 {
      assert s == "-0";
    } else {
      NotMinusZero(n);
      DecimalDigits(n);
    }
  }

  lemma NegativeShape(n: nat)
    ensures var s := "-" + Decimal(n); SignLen(s) == 1 && NumberShape(s) == Some((|s|, true))
  {
    NaturalBody(n);
    assert ("-" + Decimal(n))[1..] == Decimal(n);
  }

  lemma NotMinusZero(n: nat)
    requires n > 0
    ensures "-" + Decimal(n) != "-0"
  {
    if "-" + Decimal(n) == "-0" {
      assert ("-" + Decimal(n))[1..] == Decimal(n) && "-0"[1..] == "0";
      LeadingZero(n);
      assert false;
    }
  }

  function Hex(n: nat): string
    requires n < 0x10000
  {
    [HexDigit(n / 0x1000), HexDigit(n / 0x100 % 16), HexDigit(n / 0x10 % 16), HexDigit(n % 16)]
  }

  lemma HexPositions(n: nat)
    requires n < 0x10000
    ensures ((n / 0x1000 * 16 + n / 0x100 % 16) * 16 + n / 0x10 % 16) * 16 + n % 16 == n
  {
  }

  lemma FourDigits(s: string, a: nat, b: nat, c: nat, d: nat)
    requires |s| >= 4 && a < 16 && b < 16 && c < 16 && d < 16
    requires s[..4] == [HexDigit(a), HexDigit(b), HexDigit(c), HexDigit(d)]
    requires ((a * 16 + b) * 16 + c) * 16 + d < 0x10000
    ensures Hex4(s) == Some(((a * 16 + b) * 16 + c) * 16 + d)
  {
    HexReads(a);
    HexReads(b);
    HexReads(c);
    HexReads(d);
    assert s[0] == s[..4][0] && s[1] == s[..4][1] && s[2] == s[..4][2] && s[3] == s[..4][3];
  }

  lemma HexCodeReads(n: nat, t: string)
    requires n < 0x10000
    ensures Hex4(Hex(n) + t) == Some(n)
  {
    var a, b, c, d := n / 0x1000, n / 0x100 % 16, n / 0x10 % 16, n % 16;
    assert a < 16 && ((a * 16 + b) * 16 + c) * 16 + d == n by { HexPositions(n); }
    assert (Hex(n) + t)[..4] == [HexDigit(a), HexDigit(b), HexDigit(c), HexDigit(d)];
    FourDigits(Hex(n) + t, a, b, c, d);
  }

  /** A \\u escape is its character, unless it is half of a surrogate pair. */
  lemma CodeReads(n: nat, t: string)
    requires n < 0xD800 || 0xE000 <= n < 0x10000
    ensures Escape("u" + (Hex(n) + t)) == Some((n as char, 5))
  {
    var s := "u" + (Hex(n) + t);
    assert s[1..] == Hex(n) + t;
    HexCodeReads(n, t);
  }

  /** A pair of escapes stands for one character beyond the first 65536. */
  lemma PairReads(high: nat, low: nat, t: string)
    requires 0xD800 <= high < 0xDC00 <= low < 0xE000
    ensures Escape("u" + (Hex(high) + ("\\u" + (Hex(low) + t))))
         == Some(((0x10000 + (high - 0xD800) * 0x400 + (low - 0xDC00)) as char, 11))
  {
    var tail := "\\u" + (Hex(low) + t);
    HexCodeReads(high, tail);
    HexCodeReads(low, t);
    PairText(Hex(high), Hex(low), t);
  }

  lemma PairText(a: string, b: string, t: string)
    requires |a| == |b| == 4
    ensures var s := "u" + (a + ("\\u" + (b + t)));
            && s[1..] == a + ("\\u" + (b + t)) && s[7..] == b + t
            && |s| >= 11 && s[0] == 'u' && s[5] == '\\' && s[6] == 'u'
  {
    var tail := "\\u" + (b + t);
    var s := "u" + (a + tail);
    assert s[5..] == tail && tail[2..] == b + t;
    assert s[5] == s[5..][0] && s[6] == s[5..][1];
  }

  /** The text Dart makes of a number, a boolean or null is its JSON text. */
  lemma TextIsJson(j: Json)
    requires j.JNull? || j.JBool? || j.JNum?
    ensures ToText(j).Some? && ParseText(ToText(j).value) == Some(j)
  {
    LiteralsRead();
    if j.JNum? {
      if j.n < 0 {
        NegativeReads(-j.n);
      } else {
        NaturalNumber(j.n);
        DecimalDigits(j.n);
        NumberIsText(Decimal(j.n));
      }
    }
  }
}
