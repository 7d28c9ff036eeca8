/** Graphviz record labels: escaping of names, and the text of a node's label. */
module DotLabel {
  import opened Prelude
  import JsonTree
  import JsonText

  predicate Special(c: char) {
    c in {'\\', '"', '|', '<', '>', '{', '}'}
  }

  /** `replaceAll` with a one-character pattern. */
  function ReplaceAll(s: string, c: char, with: string): string {
    if s == "" then "" else (if s[0] == c then with else [s[0]]) + ReplaceAll(s[1..], c, with)
  }

  /** The seven replacements, one after the other, backslash first. */
  function Esc(s: string): string {
    var a := ReplaceAll(s, '\\', "\\\\");
    var b := ReplaceAll(a, '"', "\\\"");
    var c := ReplaceAll(b, '|', "\\|");
    var d := ReplaceAll(c, '<', "\\<");
    var e := ReplaceAll(d, '>', "\\>");
    var f := ReplaceAll(e, '{', "\\{");
    ReplaceAll(f, '}', "\\}")
  }

  /** A backslash before each character of a set, in a single pass. */
  function Mark(s: string, marked: set<char>): string {
    if s == "" then "" else (if s[0] in marked then ['\\', s[0]] else [s[0]]) + Mark(s[1..], marked)
  }

  /** The escape of all seven special characters in a single pass. */
  function EscOnce(s: string): string {
    Mark(s, {'\\', '"', '|', '<', '>', '{', '}'})
  }

  lemma {:induction false} ReplaceSplit(a: string, b: string, c: char, with: string)
    ensures ReplaceAll(a + b, c, with) == ReplaceAll(a, c, with) + ReplaceAll(b, c, with)
  {
    if a == "" {
      assert a + b == b;
    } else {
      assert (a + b)[1..] == a[1..] + b;
      ReplaceSplit(a[1..], b, c, with);
    }
  }

  /** One more replacement marks one more character, as long as backslashes were marked before. */
  lemma {:induction false} MarkOneMore(s: string, marked: set<char>, c: char)
    requires '\\' in marked && c !in marked
    ensures ReplaceAll(Mark(s, marked), c, ['\\', c]) == Mark(s, marked + {c})
  {
    if s != "" {
      var head := if s[0] in marked then ['\\', s[0]] else [s[0]];
      ReplaceSplit(head, Mark(s[1..], marked), c, ['\\', c]);
      MarkOneMore(s[1..], marked, c);
      HeadReplaced(s[0], marked, c);
    }
  }

  lemma HeadReplaced(x: char, marked: set<char>, c: char)
    requires '\\' in marked && c !in marked
    ensures var head := if x in marked then ['\\', x] else [x];
            ReplaceAll(head, c, ['\\', c]) == if x in marked + {c} then ['\\', x] else [x]
  {
    var head := if x in marked then ['\\', x] else [x];
    assert ReplaceAll("", c, ['\\', c]) == "";
    if x in marked {
      assert head[1..] == [x] && [x][1..] == "";
      assert ReplaceAll([x], c, ['\\', c]) == [x];
    } else {
      assert head[1..] == "";
    }
  }

  lemma {:induction false} MarkBackslash(s: string)
    ensures ReplaceAll(s, '\\', "\\\\") == Mark(s, {'\\'})
  {
    if s != "" { MarkBackslash(s[1..]); }
  }

  /** The seven sequential replacements are one single-pass escape, on every string. */
  lemma SequentialIsSinglePass(s: string)
    ensures Esc(s) == EscOnce(s)
  {
    MarkBackslash(s);
    MarkOneMore(s, {'\\'}, '"');
    MarkOneMore(s, {'\\', '"'}, '|');
    MarkOneMore(s, {'\\', '"', '|'}, '<');
    MarkOneMore(s, {'\\', '"', '|', '<'}, '>');
    MarkOneMore(s, {'\\', '"', '|', '<', '>'}, '{');
    MarkOneMore(s, {'\\', '"', '|', '<', '>', '{'}, '}');
    assert {'\\'} + {'"'} == {'\\', '"'};
    assert {'\\', '"'} + {'|'} == {'\\', '"', '|'};
    assert {'\\', '"', '|'} + {'<'} == {'\\', '"', '|', '<'};
    assert {'\\', '"', '|', '<'} + {'>'} == {'\\', '"', '|', '<', '>'};
    assert {'\\', '"', '|', '<', '>'} + {'{'} == {'\\', '"', '|', '<', '>', '{'};
    assert {'\\', '"', '|', '<', '>', '{'} + {'}'} == {'\\', '"', '|', '<', '>', '{', '}'};
  }

  /** Backslash has to go first: done after the bar, it escapes the bar's own backslash. */
  lemma BackslashMustGoFirst()
    ensures ReplaceAll(ReplaceAll("|", '|', "\\|"), '\\', "\\\\") != EscOnce("|")
  {
    assert "|"[1..] == "";
    assert ReplaceAll("|", '|', "\\|") == "\\|";
    assert "\\|"[1..] == "|";
    assert ReplaceAll("|", '\\', "\\\\") == "|";
    assert ReplaceAll("\\|", '\\', "\\\\") == "\\\\" + "|";
    assert EscOnce("|") == "\\|";
  }

  /** Dropping the backslash of every escape pair. */
  function Unescape(s: string): string {
    if s == "" then ""
    else if s[0] == '\\' && |s| >= 2 then [s[1]] + Unescape(s[2..])
    else [s[0]] + Unescape(s[1..])
  }

  lemma {:induction false} UnescapeInverts(s: string)
    ensures Unescape(Esc(s)) == s
  {
    SequentialIsSinglePass(s);
    if s != "" {
      SequentialIsSinglePass(s[1..]);
      UnescapeInverts(s[1..]);
      var e := EscOnce(s);
      if Special(s[0]) {
        assert e[2..] == EscOnce(s[1..]);
      } else {
        assert e[1..] == EscOnce(s[1..]);
      }
    }
  }

  // ---------------------------------------------------------------- the label

  datatype PortLabel = PortLabel(id: nat, name: string)
  datatype Record = Record(name: string, mediaClass: string, inputs: seq<PortLabel>, outputs: seq<PortLabel>)

  function PortText(tag: char, p: PortLabel): string {
    ['<', tag] + (JsonTree.Decimal(p.id) + ("> " + Esc(p.name)))
  }

  function PortTexts(tag: char, ps: seq<PortLabel>): seq<string> {
    seq(|ps|, i requires 0 <= i < |ps| => PortText(tag, ps[i]))
  }

  function Ports(tag: char, ps: seq<PortLabel>): string {
    Join(PortTexts(tag, ps), "|")
  }

  function TitleText(r: Record): string {
    Esc(r.name) + ("\\n[" + (Esc(r.mediaClass) + "]"))
  }

  /** One side of ports in braces, or nothing when there are none. */
  function SideTexts(tag: char, ps: seq<PortLabel>): seq<string> {
    if Ports(tag, ps) == "" then [] else ["{" + (Ports(tag, ps) + "}")]
  }

  function BodyText(r: Record): string {
    Join(SideTexts('i', r.inputs) + [TitleText(r)] + SideTexts('o', r.outputs), "|")
  }

  function LabelText(r: Record): string {
    "{" + (BodyText(r) + "}")
  }

  // ----------------------------------------------------------- reading it back

  /** Splits at unescaped bars outside braces. */
  function Split(s: string, depth: nat, acc: string): seq<string>
    decreases |s|
  {
    if s == "" then [acc]
    else if s[0] == '\\' && |s| >= 2 then Split(s[2..], depth, acc + s[..2])
    else if s[0] == '|' && depth == 0 then [acc] + Split(s[1..], 0, "")
    else if s[0] == '{' then Split(s[1..], depth + 1, acc + [s[0]])
    else if s[0] == '}' && depth > 0 then Split(s[1..], depth - 1, acc + [s[0]])
    else Split(s[1..], depth, acc + [s[0]])
  }

  /** The brace depth after a piece that has no unescaped bar at depth 0; None for any other piece. */
  function Through(s: string, depth: nat): Option<nat>
    decreases |s|
  {
    if s == "" then Some(depth)
    else if s[0] == '\\' then if |s| >= 2 then Through(s[2..], depth) else None
    else if s[0] == '|' && depth == 0 then None
    else if s[0] == '{' then Through(s[1..], depth + 1)
    else if s[0] == '}' then if depth > 0 then Through(s[1..], depth - 1) else None
    else Through(s[1..], depth)
  }

  lemma {:induction false} ThroughThen(a: string, b: string, depth: nat)
    requires Through(a, depth).Some?
    ensures Through(a + b, depth) == Through(b, Through(a, depth).value)
    decreases |a|
  {
    if a == "" {
      assert a + b == b;
    } else if a[0] == '\\' {
      assert (a + b)[2..] == a[2..] + b;
      ThroughThen(a[2..], b, depth);
    } else {
      assert (a + b)[1..] == a[1..] + b;
      ThroughThen(a[1..], b, if a[0] == '{' then depth + 1 else if a[0] == '}' then depth - 1 else depth);
    }
  }

  lemma {:induction false} SplitThrough(a: string, b: string, depth: nat, acc: string)
    requires Through(a, depth).Some?
    ensures Split(a + b, depth, acc) == Split(b, Through(a, depth).value, acc + a)
    decreases |a|
  {
    if a == "" {
      assert a + b == b && acc + a == acc;
    } else if a[0] == '\\' {
      assert (a + b)[2..] == a[2..] + b && (a + b)[..2] == a[..2];
      SplitThrough(a[2..], b, depth, acc + a[..2]);
      assert acc + a[..2] + a[2..] == acc + a;
    } else {
      assert (a + b)[1..] == a[1..] + b;
      var deeper := if a[0] == '{' then depth + 1 else if a[0] == '}' then depth - 1 else depth;
      SplitThrough(a[1..], b, deeper, acc + [a[0]]);
      assert acc + [a[0]] + a[1..] == acc + a;
    }
  }

  /** Joining inert pieces with bars and splitting again gives the pieces back. */
  lemma {:induction false} SplitJoin(parts: seq<string>)
    requires parts != [] && forall i :: 0 <= i < |parts| ==> Through(parts[i], 0) == Some(0)
    ensures Split(Join(parts, "|"), 0, "") == parts
  {
    var p := parts[0];
    assert "" + p == p;
    if |parts| == 1 {
      assert p + "" == p;
      SplitThrough(p, "", 0, "");
    } else {
      var rest := "|" + Join(parts[1..], "|");
      SplitThrough(p, rest, 0, "");
      assert rest[1..] == Join(parts[1..], "|");
      SplitJoin(parts[1..]);
    }
  }

  /** Escaped text is inert at every depth. */
  lemma {:induction false} EscInert(s: string, depth: nat)
    ensures Through(Esc(s), depth) == Some(depth)
  {
    SequentialIsSinglePass(s);
    if s != "" {
      SequentialIsSinglePass(s[1..]);
      EscInert(s[1..], depth);
      var e := EscOnce(s);
      if Special(s[0]) {
        assert e[2..] == EscOnce(s[1..]);
      } else {
        assert e[1..] == EscOnce(s[1..]);
      }
    }
  }

  /** Text of characters that mean nothing to the splitter. */
  predicate Flat(s: string) {
    forall i :: 0 <= i < |s| ==> s[i] != '\\' && s[i] != '|' && s[i] != '{' && s[i] != '}'
  }

  lemma {:induction false} FlatInert(s: string, depth: nat)
    requires Flat(s)
    ensures Through(s, depth) == Some(depth)
  {
    if s != "" { FlatInert(s[1..], depth); }
  }

  lemma PortInert(tag: char, p: PortLabel, depth: nat)
    requires tag == 'i' || tag == 'o'
    ensures Through(PortText(tag, p), depth) == Some(depth)
  {
    JsonText.DecimalDigits(p.id);
    EscInert(p.name, depth);
    FlatInert("> ", depth);
    ThroughThen("> ", Esc(p.name), depth);
    FlatInert(JsonTree.Decimal(p.id), depth);
    ThroughThen(JsonTree.Decimal(p.id), "> " + Esc(p.name), depth);
    FlatInert(['<', tag], depth);
    ThroughThen(['<', tag], JsonTree.Decimal(p.id) + ("> " + Esc(p.name)), depth);
  }

  /** Inside braces, ports joined by bars are inert too. */
  lemma {:induction false} PortsInert(parts: seq<string>, depth: nat)
    requires depth > 0 && forall i :: 0 <= i < |parts| ==> Through(parts[i], depth) == Some(depth)
    ensures Through(Join(parts, "|"), depth) == Some(depth)
  {
    if |parts| > 1 {
      PortsInert(parts[1..], depth);
      var rest := "|" + Join(parts[1..], "|");
      assert rest[1..] == Join(parts[1..], "|");
      ThroughThen(parts[0], rest, depth);
    }
  }

  lemma SideInert(tag: char, ps: seq<PortLabel>)
    requires tag == 'i' || tag == 'o'
    ensures Through("{" + (Ports(tag, ps) + "}"), 0) == Some(0)
  {
    forall i | 0 <= i < |ps| ensures Through(PortTexts(tag, ps)[i], 1) == Some(1) {
      PortInert(tag, ps[i], 1);
    }
    PortsInert(PortTexts(tag, ps), 1);
    ThroughThen(Ports(tag, ps), "}", 1);
    var s := "{" + (Ports(tag, ps) + "}");
    assert s[1..] == Ports(tag, ps) + "}" && "}"[1..] == "";
  }

  lemma TitleInert(r: Record)
    ensures Through(TitleText(r), 0) == Some(0)
  {
    EscInert(r.name, 0);
    EscInert(r.mediaClass, 0);
    FlatInert("]", 0);
    ThroughThen(Esc(r.mediaClass), "]", 0);
    var tail := "\\n[" + (Esc(r.mediaClass) + "]");
    assert tail[2..] == "[" + (Esc(r.mediaClass) + "]");
    FlatInert("[", 0);
    ThroughThen("[", Esc(r.mediaClass) + "]", 0);
    ThroughThen(Esc(r.name), tail, 0);
  }

  /** A title up to its line break, and the text after the break. */
  function AtBreak(s: string): Option<(string, string)>
    decreases |s|
  {
    if |s| < 2 then None
    else if s[0] == '\\' && s[1] == 'n' then Some(("", s[2..]))
    else
      var n := if s[0] == '\\' then 2 else 1;
      var rest := AtBreak(s[n..]);
      if rest.None? then None else Some((s[..n] + rest.value.0, rest.value.1))
  }

  lemma {:induction false} BreakFound(s: string, tail: string)
    ensures AtBreak(Esc(s) + ("\\n" + tail)) == Some((Esc(s), tail))
  {
    SequentialIsSinglePass(s);
    var e := EscOnce(s);
    var t := "\\n" + tail;
    assert t[2..] == tail;
    if s == "" {
      assert e + t == t;
    } else {
      SequentialIsSinglePass(s[1..]);
      BreakFound(s[1..], tail);
      var n := if Special(s[0]) then 2 else 1;
      assert e[n..] == EscOnce(s[1..]);
      assert (e + t)[n..] == EscOnce(s[1..]) + t;
      assert (e + t)[..n] == e[..n];
      assert e[..n] + EscOnce(s[1..]) == e;
    }
  }

  /** Name and media class from a title. */
  function ReadTitle(s: string): Option<(string, string)> {
    var b := AtBreak(s);
    if b.None? || |b.value.1| < 2 then None
    else Some((Unescape(b.value.0), Unescape(b.value.1[1..|b.value.1| - 1])))
  }

  lemma TitleReadsBack(r: Record)
    ensures ReadTitle(TitleText(r)) == Some((r.name, r.mediaClass))
  {
    var tail := "[" + (Esc(r.mediaClass) + "]");
    assert "\\n" + tail == "\\n[" + (Esc(r.mediaClass) + "]");
    BreakFound(r.name, tail);
    assert tail[1..|tail| - 1] == Esc(r.mediaClass);
    UnescapeInverts(r.name);
    UnescapeInverts(r.mediaClass);
  }

  /** Id and name from a port field, whose anchor `<i…>` or `<o…>` is what edges name. */
  function ReadPort(tag: char, s: string): Option<PortLabel> {
    if |s| < 2 || s[0] != '<' || s[1] != tag then None else
    var digits := JsonText.DigitsLen(s[2..]);
    if |s| < 2 + digits + 2 || s[2 + digits] != '>' || s[2 + digits + 1] != ' ' then None
    else Some(PortLabel(JsonText.NatValue(s[2..2 + digits]), Unescape(s[2 + digits + 2..])))
  }

  lemma PortReadsBack(tag: char, p: PortLabel)
    ensures ReadPort(tag, PortText(tag, p)) == Some(p)
  {
    var s := PortText(tag, p);
    var d := JsonTree.Decimal(p.id);
    var tail := "> " + Esc(p.name);
    assert s[2..] == d + tail;
    JsonText.DecimalDigits(p.id);
    JsonText.AllDigits(d);
    JsonText.DigitsMore(d, tail);
    assert s[2..][|d|..] == tail && s[2 + |d|] == '>' && s[2 + |d| + 1] == ' ';
    assert s[2..2 + |d|] == d && s[2 + |d| + 2..] == Esc(p.name);
    UnescapeInverts(p.name);
  }

  function ReadPorts(tag: char, parts: seq<string>): Option<seq<PortLabel>> {
    if parts == [] then Some([]) else
    match (ReadPort(tag, parts[0]), ReadPorts(tag, parts[1..]))
    case (Some(p), Some(more)) => Some([p] + more)
    case _ => None
  }

  /** The ports of a field in braces. */
  function ReadSide(tag: char, field: string): Option<seq<PortLabel>> {
    if |field| < 2 then None else ReadPorts(tag, Split(field[1..|field| - 1], 0, ""))
  }

  predicate InBraces(field: string) {
    field != "" && field[0] == '{'
  }

  /** The record a label stands for: its fields, a first or last one in braces being a side of ports. */
  function ReadFields(fields: seq<string>): Option<Record> {
    var first := if fields != [] && InBraces(fields[0]) then 1 else 0;
    if |fields| <= first then None else
    match (if first == 1 then ReadSide('i', fields[0]) else Some([]), ReadTitle(fields[first]),
           if |fields| > first + 1 then ReadSide('o', fields[first + 1]) else Some([]))
    case (Some(ins), Some((name, cls)), Some(outs)) => Some(Record(name, cls, ins, outs))
    case _ => None
  }

  function ReadLabel(text: string): Option<Record> {
    if |text| < 2 then None else ReadFields(Split(text[1..|text| - 1], 0, ""))
  }

  lemma {:induction false} PortsReadBack(tag: char, ps: seq<PortLabel>)
    ensures ReadPorts(tag, PortTexts(tag, ps)) == Some(ps)
  {
    if ps != [] {
      PortReadsBack(tag, ps[0]);
      PortsReadBack(tag, ps[1..]);
      assert PortTexts(tag, ps)[1..] == PortTexts(tag, ps[1..]);
      assert [ps[0]] + ps[1..] == ps;
    }
  }

  lemma PortsNonempty(tag: char, ps: seq<PortLabel>)
    ensures Ports(tag, ps) == "" <==> ps == []
  {
    if ps != [] { assert |PortTexts(tag, ps)[0]| >= 2; }
  }

  lemma SideReadsBack(tag: char, ps: seq<PortLabel>)
    requires ps != [] && (tag == 'i' || tag == 'o')
    ensures ReadSide(tag, "{" + (Ports(tag, ps) + "}")) == Some(ps)
  {
    var field := "{" + (Ports(tag, ps) + "}");
    assert field[1..|field| - 1] == Ports(tag, ps);
    forall i | 0 <= i < |ps| ensures Through(PortTexts(tag, ps)[i], 0) == Some(0) {
      PortInert(tag, ps[i], 0);
    }
    SplitJoin(PortTexts(tag, ps));
    PortsReadBack(tag, ps);
  }

  /** A title never looks like a side of ports: a brace in a name is escaped. */
  lemma TitleNotInBraces(r: Record)
    ensures !InBraces(TitleText(r))
  {
    SequentialIsSinglePass(r.name);
  }

  function Fields(r: Record): seq<string> {
    SideTexts('i', r.inputs) + [TitleText(r)] + SideTexts('o', r.outputs)
  }

  lemma FieldsInert(r: Record)
    ensures forall i :: 0 <= i < |Fields(r)| ==> Through(Fields(r)[i], 0) == Some(0)
  {
    TitleInert(r);
    SideInert('i', r.inputs);
    SideInert('o', r.outputs);
  }

  /** The side after the title, or no ports when it is absent. */
  lemma LastSide(r: Record)
    ensures var outs := SideTexts('o', r.outputs);
            |outs| == (if r.outputs == [] then 0 else 1) && (outs != [] ==> ReadSide('o', outs[0]) == Some(r.outputs))
  {
    PortsNonempty('o', r.outputs);
    if r.outputs != [] { SideReadsBack('o', r.outputs); }
  }

  lemma FieldsReadBack(r: Record)
    ensures ReadFields(Fields(r)) == Some(r)
  {
    var title, outs := TitleText(r), SideTexts('o', r.outputs);
    LastSide(r);
    PortsNonempty('i', r.inputs);
    TitleNotInBraces(r);
    TitleReadsBack(r);
    if r.inputs == [] {
      assert Fields(r) == [title] + outs;
    } else {
      SideReadsBack('i', r.inputs);
      var ins := "{" + (Ports('i', r.inputs) + "}");
      assert Fields(r) == [ins, title] + outs;
      assert InBraces(ins);
    }
  }

  /**
    The label text determines the record: reading the fields back gives every
    port's id and name, behind the anchor of its side, the node's name and its
    media class, for all names, whatever special characters they hold.
   */
  lemma LabelRoundTrip(r: Record)
    ensures ReadLabel(LabelText(r)) == Some(r)
  {
    var text := LabelText(r);
    assert text[1..|text| - 1] == BodyText(r);
    FieldsInert(r);
    SplitJoin(Fields(r));
    FieldsReadBack(r);
  }

  // ------------------------------------------------------------ quotation marks

  /** No unescaped quotation mark, and no escape cut short: the text may stand between quotation marks. */
  predicate QuoteSafe(s: string)
    decreases |s|
  {
    s == "" || (if s[0] == '\\' then |s| >= 2 && QuoteSafe(s[2..]) else s[0] != '"' && QuoteSafe(s[1..]))
  }

  lemma {:induction false} QuoteSafeThen(a: string, b: string)
    requires QuoteSafe(a) && QuoteSafe(b)
    ensures QuoteSafe(a + b)
    decreases |a|
  {
    if a == "" {
      assert a + b == b;
    } else if a[0] == '\\' {
      assert (a + b)[2..] == a[2..] + b;
      QuoteSafeThen(a[2..], b);
    } else {
      assert (a + b)[1..] == a[1..] + b;
      QuoteSafeThen(a[1..], b);
    }
  }

  lemma {:induction false} EscQuoteSafe(s: string)
    ensures QuoteSafe(Esc(s))
  {
    SequentialIsSinglePass(s);
    if s != "" {
      SequentialIsSinglePass(s[1..]);
      EscQuoteSafe(s[1..]);
      var e := EscOnce(s);
      if Special(s[0]) {
        assert e[2..] == EscOnce(s[1..]);
      } else {
        assert e[1..] == EscOnce(s[1..]);
      }
    }
  }

  lemma {:induction false} PlainQuoteSafe(s: string)
    requires forall i :: 0 <= i < |s| ==> s[i] != '\\' && s[i] != '"'
    ensures QuoteSafe(s)
  {
    if s != "" { PlainQuoteSafe(s[1..]); }
  }

  lemma {:induction false} JoinQuoteSafe(parts: seq<string>)
    requires forall i :: 0 <= i < |parts| ==> QuoteSafe(parts[i])
    ensures QuoteSafe(Join(parts, "|"))
  {
    if |parts| > 1 {
      JoinQuoteSafe(parts[1..]);
      PlainQuoteSafe("|");
      QuoteSafeThen("|", Join(parts[1..], "|"));
      QuoteSafeThen(parts[0], "|" + Join(parts[1..], "|"));
    }
  }

  lemma SideQuoteSafe(tag: char, ps: seq<PortLabel>)
    requires tag == 'i' || tag == 'o'
    ensures QuoteSafe("{" + (Ports(tag, ps) + "}"))
  {
    forall i | 0 <= i < |ps| ensures QuoteSafe(PortTexts(tag, ps)[i]) {
      var p := ps[i];
      EscQuoteSafe(p.name);
      PlainQuoteSafe("> ");
      QuoteSafeThen("> ", Esc(p.name));
      JsonText.DecimalDigits(p.id);
      PlainQuoteSafe(JsonTree.Decimal(p.id));
      QuoteSafeThen(JsonTree.Decimal(p.id), "> " + Esc(p.name));
      PlainQuoteSafe(['<', tag]);
      QuoteSafeThen(['<', tag], JsonTree.Decimal(p.id) + ("> " + Esc(p.name)));
    }
    JoinQuoteSafe(PortTexts(tag, ps));
    PlainQuoteSafe("{");
    PlainQuoteSafe("}");
    QuoteSafeThen(Ports(tag, ps), "}");
    QuoteSafeThen("{", Ports(tag, ps) + "}");
  }

  lemma TitleQuoteSafe(r: Record)
    ensures QuoteSafe(TitleText(r))
  {
    EscQuoteSafe(r.name);
    EscQuoteSafe(r.mediaClass);
    PlainQuoteSafe("]");
    QuoteSafeThen(Esc(r.mediaClass), "]");
    PlainQuoteSafe("[");
    QuoteSafeThen("[", Esc(r.mediaClass) + "]");
    var tail := "\\n[" + (Esc(r.mediaClass) + "]");
    assert tail[2..] == "[" + (Esc(r.mediaClass) + "]");
    QuoteSafeThen(Esc(r.name), tail);
  }

  /** The label never ends its quoted attribute early, whatever quotation marks the names hold. */
  lemma LabelQuoteSafe(r: Record)
    ensures QuoteSafe(LabelText(r))
  {
    TitleQuoteSafe(r);
    SideQuoteSafe('i', r.inputs);
    SideQuoteSafe('o', r.outputs);
    JoinQuoteSafe(Fields(r));
    PlainQuoteSafe("{");
    PlainQuoteSafe("}");
    QuoteSafeThen(BodyText(r), "}");
    QuoteSafeThen("{", BodyText(r) + "}");
  }
}
