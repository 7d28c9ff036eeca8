/** PipeWire versions: parsed from text, packed into a word, unpacked and compared. */
module Version {
  import opened Prelude
  import JsonTree
  import JsonText
  import Masks

  const ULONG: nat := 0x1_0000_0000_0000_0000
  const UINT32: nat := 0x1_0000_0000

  predicate IsSpace(c: char) {
    c == ' ' || '\t' <= c <= '\r'
  }

  function SpaceLen(s: string): (n: nat)
    ensures n <= |s|
  {
    if s != "" && IsSpace(s[0]) then 1 + SpaceLen(s[1..]) else 0
  }

  /** Out of range is the largest value; a minus sign negates modulo 2^64. */
  function Clamped(v: nat, negative: bool): nat {
    if v >= ULONG then ULONG - 1
    else if negative && v > 0 then ULONG - v
    else v
  }

  /** `strtoul(s, &end, 10)`: the value and how far `end` is from the start; nothing is consumed without a digit. */
  function Strtoul(s: string): (r: (nat, nat))
    ensures r.1 <= |s|
  {
    var at := SpaceLen(s);
    var negative := at < |s| && s[at] == '-';
    var start := if at < |s| && (s[at] == '-' || s[at] == '+') then at + 1 else at;
    NumberFrom(s, start, negative)
  }

  /** The digits from `start` on. */
  function NumberFrom(s: string, start: nat, negative: bool): (r: (nat, nat))
    requires start <= |s|
    ensures r.1 <= |s|
  {
    var digits := JsonText.DigitsLen(s[start..]);
    if digits == 0 then (0, 0)
    else (Clamped(JsonText.NatValue(s[start..start + digits]), negative), start + digits)
  }

  /** Bitwise or, digit by digit. */
  function Or(a: nat, b: nat): nat
    decreases a + b
  {
    if a == 0 then b else if b == 0 then a
    else (if a % 2 == 1 || b % 2 == 1 then 1 else 0) + 2 * Or(a / 2, b / 2)
  }

  /** `static_cast<uint32_t>((major << 16) | (minor << 8) | micro)` over unsigned long. */
  function Pack(major: nat, minor: nat, micro: nat): nat {
    Or(Or((major * 0x10000) % ULONG, (minor * 0x100) % ULONG), micro) % UINT32
  }

  /** `(packed >> 16) & 0xFF` and so on. */
  function Unpack(packed: nat): (nat, nat, nat) {
    (Masks.And(packed / 0x10000, 0xFF), Masks.And(packed / 0x100, 0xFF), Masks.And(packed, 0xFF))
  }

  /** The text after the point that ends the number at the front, if one does. */
  function AfterPoint(s: string): Option<string> {
    var end := s[Strtoul(s).1..];
    if end != "" && end[0] == '.' then Some(end[1..]) else None
  }

  /** The three components the parser finds; those it does not reach are 0. */
  function Components(ver: Option<string>): (nat, nat, nat) {
    match ver
    case None => (0, 0, 0)
    case Some(s) =>
      match AfterPoint(s)
      case None => (Strtoul(s).0, 0, 0)
      case Some(t) =>
        match AfterPoint(t)
        case None => (Strtoul(s).0, Strtoul(t).0, 0)
        case Some(u) => (Strtoul(s).0, Strtoul(t).0, Strtoul(u).0)
  }

  /** The parse, step by step; `end` points at the text after the last number. */
  method ParseVersion(ver: Option<string>) returns (major: nat, minor: nat, micro: nat)
    ensures (major, minor, micro) == Components(ver)
  {
    major, minor, micro := 0, 0, 0;
    if ver.None? { return; }
    var first := Strtoul(ver.value);
    major := first.0;
    var end := ver.value[first.1..];
    if end == "" || end[0] != '.' { return; }
    var second := Strtoul(end[1..]);
    minor := second.0;
    end := end[1..][second.1..];
    if end == "" || end[0] != '.' { return; }
    var third := Strtoul(end[1..]);
    micro := third.0;
  }

  /** `pw_dart_get_pw_library_version`, given the library's version text (None is a null pointer). */
  method LibraryVersion(ver: Option<string>) returns (packed: nat)
    ensures packed == Word(Components(ver))
  {
    var major, minor, micro := ParseVersion(ver);
    packed := Pack(major, minor, micro);
  }

  function Text(major: nat, minor: nat, micro: nat): string {
    JsonTree.Decimal(major) + ("." + (JsonTree.Decimal(minor) + ("." + JsonTree.Decimal(micro))))
  }

  // ------------------------------------------------------------------ parsing

  lemma StrtoulDecimal(n: nat, x: string)
    requires n < ULONG && (x == "" || !JsonText.IsDigit(x[0]))
    ensures Strtoul(JsonTree.Decimal(n) + x) == (n, |JsonTree.Decimal(n)|)
  {
    var d := JsonTree.Decimal(n);
    JsonText.DecimalDigits(n);
    JsonText.AllDigits(d);
    JsonText.DigitsMore(d, x);
    var s := d + x;
    assert JsonText.IsDigit(d[0]) && s[0] == d[0];
    assert SpaceLen(s) == 0 && s[0..] == s && s[0..|d|] == d;
  }

  lemma LastParses(micro: nat)
    requires micro < ULONG
    ensures Strtoul(JsonTree.Decimal(micro)).0 == micro
  {
    assert JsonTree.Decimal(micro) + "" == JsonTree.Decimal(micro);
    StrtoulDecimal(micro, "");
  }

  /** A component, its point, and the text after the point. */
  lemma PointAfter(n: nat, tail: string)
    requires n < ULONG
    ensures var s := JsonTree.Decimal(n) + ("." + tail);
            Strtoul(s).0 == n && AfterPoint(s) == Some(tail)
  {
    var d, t := JsonTree.Decimal(n), "." + tail;
    StrtoulDecimal(n, t);
    var s := d + t;
    assert s[|d|..] == t && t[1..] == tail;
  }

  /** Decimal components come back as numbers. */
  lemma TextParses(major: nat, minor: nat, micro: nat)
    requires major < ULONG && minor < ULONG && micro < ULONG
    ensures Components(Some(Text(major, minor, micro))) == (major, minor, micro)
  {
    var last := JsonTree.Decimal(micro);
    PointAfter(major, JsonTree.Decimal(minor) + ("." + last));
    PointAfter(minor, last);
    LastParses(micro);
  }

  /** What follows the third number is ignored. */
  lemma SuffixIgnored(major: nat, minor: nat, micro: nat, x: string)
    requires major < ULONG && minor < ULONG && micro < ULONG && (x == "" || !JsonText.IsDigit(x[0]))
    ensures Components(Some(Text(major, minor, micro) + x)) == (major, minor, micro)
  {
    var a, b, c := JsonTree.Decimal(major), JsonTree.Decimal(minor), JsonTree.Decimal(micro);
    Associate(a, "." + (b + ("." + c)), x);
    Associate(".", b + ("." + c), x);
    Associate(b, "." + c, x);
    Associate(".", c, x);
    PointAfter(major, b + ("." + (c + x)));
    PointAfter(minor, c + x);
    StrtoulDecimal(micro, x);
  }

  /** Numbers that are not there are 0: a null pointer, one number, or two. */
  lemma MissingAreZero(major: nat, minor: nat)
    requires major < ULONG && minor < ULONG
    ensures Components(None) == (0, 0, 0)
    ensures Components(Some(JsonTree.Decimal(major))) == (major, 0, 0)
    ensures Components(Some(JsonTree.Decimal(major) + ("." + JsonTree.Decimal(minor)))) == (major, minor, 0)
  {
    var a, b := JsonTree.Decimal(major), JsonTree.Decimal(minor);
    PointAfter(major, b);
    assert a + "" == a && b + "" == b;
    StrtoulDecimal(major, "");
    StrtoulDecimal(minor, "");
    assert a[|a|..] == "" && b[|b|..] == "";
  }

  // ------------------------------------------------------------------ packing

  lemma HalveProduct(a: nat, half: nat)
    ensures (a * (2 * half)) % 2 == 0 && (a * (2 * half)) / 2 == a * half
  {
    assert a * (2 * half) == 2 * (a * half);
  }

  lemma {:induction false} OrDisjoint(a: nat, b: nat, k: nat)
    requires b < Masks.Pow2(k)
    ensures Or(a * Masks.Pow2(k), b) == a * Masks.Pow2(k) + b
  {
    var x := a * Masks.Pow2(k);
    if k > 0 && x > 0 && b > 0 {
      var half := Masks.Pow2(k - 1);
      OrDisjoint(a, b / 2, k - 1);
      HalveProduct(a, half);
      OrStep(x, b);
    }
  }

  lemma OrStep(a: nat, b: nat)
    requires a > 0 && b > 0
    ensures Or(a, b) == (if a % 2 == 1 || b % 2 == 1 then 1 else 0) + 2 * Or(a / 2, b / 2)
  {
  }

  lemma PowersHere()
    ensures Masks.Pow2(8) == 0x100 && Masks.Pow2(16) == 0x10000
  {
    assert Masks.Pow2(4) == 16;
    Masks.PowerSplit(4, 8);
    Masks.PowerSplit(8, 16);
  }

  lemma JoinHigh(major: nat, minor: nat)
    requires minor < 256
    ensures Or(major * 0x10000, minor * 0x100) == (major * 0x100 + minor) * 0x100
  {
    PowersHere();
    OrDisjoint(major, minor * 0x100, 16);
  }

  lemma JoinLow(n: nat, micro: nat)
    requires micro < 256
    ensures Or(n * 0x100, micro) == n * 0x100 + micro
  {
    PowersHere();
    OrDisjoint(n, micro, 8);
  }

  /** Components below 256 do not overlap in the word. */
  lemma PackIsPositional(major: nat, minor: nat, micro: nat)
    requires major < 256 && minor < 256 && micro < 256
    ensures Pack(major, minor, micro) == major * 0x10000 + minor * 0x100 + micro
  {
    var n := major * 0x100 + minor;
    JoinHigh(major, minor);
    JoinLow(n, micro);
    Masks.SmallRemainder(major * 0x10000, ULONG);
    Masks.SmallRemainder(minor * 0x100, ULONG);
    Masks.SmallRemainder(n * 0x100 + micro, UINT32);
  }

  lemma UnpackIsRemainders(packed: nat)
    ensures Unpack(packed) == (packed / 0x10000 % 256, packed / 0x100 % 256, packed % 256)
  {
    PowersHere();
    Masks.MaskIsRemainder(packed / 0x10000, 8);
    Masks.MaskIsRemainder(packed / 0x100, 8);
    Masks.MaskIsRemainder(packed, 8);
  }

  lemma PositionsApart(major: nat, minor: nat, micro: nat)
    requires major < 256 && minor < 256 && micro < 256
    ensures var w := major * 0x10000 + minor * 0x100 + micro;
            w / 0x10000 % 256 == major && w / 0x100 % 256 == minor && w % 256 == micro
  {
  }

  /** The version codec returns what was packed exactly when every component is below 256. */
  lemma CodecExact(major: nat, minor: nat, micro: nat)
    ensures Unpack(Pack(major, minor, micro)) == (major, minor, micro) <==> major < 256 && minor < 256 && micro < 256
  {
    var packed := Pack(major, minor, micro);
    UnpackIsRemainders(packed);
    if major < 256 && minor < 256 && micro < 256 {
      PackIsPositional(major, minor, micro);
      PositionsApart(major, minor, micro);
    }
  }

  /** From the library's text to the numbers Dart shows. */
  lemma VersionRoundTrip(major: nat, minor: nat, micro: nat)
    requires major < 256 && minor < 256 && micro < 256
    ensures var c := Components(Some(Text(major, minor, micro)));
            Unpack(Pack(c.0, c.1, c.2)) == (major, minor, micro)
  {
    TextParses(major, minor, micro);
    CodecExact(major, minor, micro);
  }

  // ---------------------------------------------------------------- comparison

  const MIN_VERSION := (0, 3, 40)

  /** The component-wise tests, as written. */
  predicate AtLeast(v: (nat, nat, nat), w: (nat, nat, nat)) {
    if v.0 != w.0 then v.0 > w.0
    else if v.1 != w.1 then v.1 > w.1
    else v.2 >= w.2
  }

  predicate MeetsMinimumVersion(lib: (nat, nat, nat)) {
    AtLeast(lib, MIN_VERSION)
  }

  predicate IsCompatible(header: (nat, nat, nat), lib: (nat, nat, nat)) {
    if lib.0 != header.0 then false
    else if lib.1 != header.1 then lib.1 > header.1
    else lib.2 >= header.2
  }

  predicate Fits(v: (nat, nat, nat)) {
    v.0 < 256 && v.1 < 256 && v.2 < 256
  }

  function Word(v: (nat, nat, nat)): nat {
    Pack(v.0, v.1, v.2)
  }

  /** The order of packed words is the order of versions. */
  lemma WordOrder(v: (nat, nat, nat), w: (nat, nat, nat))
    requires Fits(v) && Fits(w)
    ensures AtLeast(v, w) <==> Word(v) >= Word(w)
  {
    PackIsPositional(v.0, v.1, v.2);
    PackIsPositional(w.0, w.1, w.2);
  }

  /** The minimum-version test is a comparison of words, and so is compatibility among equal majors. */
  lemma ComparisonsAreWordOrder(header: (nat, nat, nat), lib: (nat, nat, nat))
    requires Fits(header) && Fits(lib)
    ensures MeetsMinimumVersion(lib) <==> Word(lib) >= 0x000328
    ensures IsCompatible(header, lib) <==> header.0 == lib.0 && Word(lib) >= Word(header)
  {
    WordOrder(lib, MIN_VERSION);
    PackIsPositional(0, 3, 40);
    WordOrder(lib, header);
  }

  /**
    The documented rule (equal majors, runtime minor not below the header's)
    differs from the code exactly on equal minors with a smaller micro.
   */
  lemma DocumentedRuleDiffers(header: (nat, nat, nat), lib: (nat, nat, nat))
    ensures (IsCompatible(header, lib) <==> lib.0 == header.0 && lib.1 >= header.1)
       <==> !(lib.0 == header.0 && lib.1 == header.1 && lib.2 < header.2)
  {
  }

  // ------------------------------------------------------------ strtoul's edges

  /** A text that is all number from `start` on. */
  lemma NumberAt(s: string, start: nat, negative: bool, d: string)
    requires start <= |s| && s[start..] == d && JsonText.DigitsLen(d) == |d| > 0
    ensures NumberFrom(s, start, negative).0 == Clamped(JsonText.NatValue(d), negative)
  {
    assert s[start..start + |d|] == d;
  }

  lemma LeadingSpace(lead: string, d: string)
    requires |lead| == 1 && d != "" && JsonText.IsDigit(d[0])
    ensures SpaceLen(d) == 0 && SpaceLen(lead + d) == if IsSpace(lead[0]) then 1 else 0
  {
    assert (lead + d)[1..] == d;
  }

  /** A number after a space or a sign. */
  lemma LedNumber(lead: string, n: nat)
    requires |lead| == 1 && (IsSpace(lead[0]) || lead[0] == '-' || lead[0] == '+')
    ensures Strtoul(lead + JsonTree.Decimal(n)).0 == Clamped(n, lead == "-")
  {
    var d := JsonTree.Decimal(n);
    JsonText.DecimalDigits(n);
    JsonText.AllDigits(d);
    LeadingSpace(lead, d);
    assert (lead + d)[1..] == d && (lead + d)[0] == lead[0] && (lead + d)[1] == d[0];
    NumberAt(lead + d, 1, lead == "-", d);
  }

  lemma BareNumber(n: nat)
    ensures Strtoul(JsonTree.Decimal(n)).0 == Clamped(n, false)
  {
    var d := JsonTree.Decimal(n);
    JsonText.DecimalDigits(n);
    JsonText.AllDigits(d);
    LeadingSpace("+", d);
    assert d[0..] == d;
    NumberAt(d, 0, false, d);
  }

  /** Too large a number is the largest; white space before it is skipped; a minus sign negates modulo 2^64. */
  lemma StrtoulEdges(n: nat, c: char)
    requires IsSpace(c)
    ensures Strtoul(JsonTree.Decimal(n)).0 == if n < ULONG then n else ULONG - 1
    ensures Strtoul([c] + JsonTree.Decimal(n)).0 == Strtoul("+" + JsonTree.Decimal(n)).0
            == Strtoul(JsonTree.Decimal(n)).0
    ensures 0 < n < ULONG ==> Strtoul("-" + JsonTree.Decimal(n)).0 == ULONG - n
    ensures n == 0 ==> Strtoul("-" + JsonTree.Decimal(n)).0 == 0
  {
    BareNumber(n);
    LedNumber([c], n);
    LedNumber("-", n);
    LedNumber("+", n);
    assert [c] != "-" by { assert [c][0] == c; }
  }
}
