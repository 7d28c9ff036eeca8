/**
  When the Dart reader gets a node's parameters back. The cache is documented
  to hold JSON values, but `set_param` caches the decoded text of a request;
  this module says exactly what a value that is no JSON text costs.
 */
module ParamsExact {
  import opened Prelude
  import opened JsonTree
  import opened JsonList
  import opened JsonText
  import opened Params

  predicate QuoteFree(v: string) {
    '"' !in v
  }

  /** What follows a value in a written entry. */
  predicate Tail(x: string) {
    ",\"type\":" <= x
  }

  // ------------------------------------------------------- quote-free text, read

  lemma {:induction false} SkipsFree(v: string)
    requires QuoteFree(v)
    ensures QuoteFree(SkipWs(v))
  {
    if v != "" && IsWs(v[0]) { SkipsFree(v[1..]); }
  }

  /** White space and then a tail: what the reader sees first after a quote-free text. */
  lemma FirstSeen(w: string, x: string)
    requires QuoteFree(w) && Tail(x)
    ensures SkipWs(w + x) == SkipWs(w) + x
    ensures SkipWs(w + x)[0] == (if SkipWs(w) == "" then ',' else SkipWs(w)[0])
    ensures SkipWs(w + x)[0] != '"'
  {
    SkipsFree(w);
    if SkipWs(w) == "" {
      SkipWsAll(w, x);
      assert "" + x == x;
    } else {
      SkipWsMore(w, x);
    }
  }

  /** The separator seen after a quote-free text: its own, or the tail's comma. */
  lemma SeparatorSeen(r: string, x: string, closer: char)
    requires QuoteFree(r) && Tail(x) && closer != ','
    ensures SkipWs(r) == "" ==> Separator(r + x, closer) == Some((true, x[1..]))
    ensures SkipWs(r) != "" && SkipWs(r)[0] in {closer, ','} ==>
              Separator(r + x, closer) == Some((SkipWs(r)[0] != closer, SkipWs(r)[1..] + x))
    ensures SkipWs(r) != "" && SkipWs(r)[0] !in {closer, ','} ==> Separator(r + x, closer) == None
  {
    FirstSeen(r, x);
    if SkipWs(r) == "" {
      assert SkipWs(r + x) == x;
    } else {
      assert (SkipWs(r) + x)[1..] == SkipWs(r)[1..] + x;
    }
  }

  /** Members need a quoted name. */
  lemma MembersNone(w: string, x: string)
    requires QuoteFree(w) && (Tail(x) || x == "")
    ensures ParseMembers(w + x) == None
  {
    if x == "" {
      assert w + x == w;
      SkipsFree(w);
    } else {
      FirstSeen(w, x);
    }
  }

  /** What is left after a value in a quote-free text is quote-free. */
  lemma {:induction false} ValueRest(w: string)
    requires QuoteFree(w) && ParseValue(w).Some?
    ensures QuoteFree(ParseValue(w).value.1)
    decreases |w|, 1
  {
    SkipsFree(w);
    var t, r := SkipWs(w), ParseValue(w).value.1;
    if t[0] == '{' {
      ObjectRest(t[1..]);
    } else if t[0] == '[' {
      ArrayRest(t[1..]);
    } else {
      assert t[0] != '"';
      assert r == t[|t| - |r|..];
    }
  }

  lemma ObjectRest(w: string)
    requires QuoteFree(w) && ParseObject(w).Some?
    ensures QuoteFree(ParseObject(w).value.1)
  {
    SkipsFree(w);
    MembersNone(w, "");
    assert w + "" == w;
  }

  lemma {:induction false} ArrayRest(w: string)
    requires QuoteFree(w) && ParseArray(w).Some?
    ensures QuoteFree(ParseArray(w).value.1)
    decreases |w|, 3
  {
    SkipsFree(w);
    var t := SkipWs(w);
    if t == "" || t[0] != ']' { ElementsRest(w); }
  }

  lemma {:induction false} ElementsRest(w: string)
    requires QuoteFree(w) && ParseElements(w).Some?
    ensures QuoteFree(ParseElements(w).value.1)
    decreases |w|, 2
  {
    ValueRest(w);
    var r := ParseValue(w).value.1;
    SkipsFree(r);
    var sep := Separator(r, ']').value;
    if sep.0 { ElementsRest(sep.1); }
  }

  // ------------------------------------------ unreadable text before a tail

  /** A tail starts no list of elements: its name is followed by a colon. */
  lemma TailElements(x: string)
    requires Tail(x)
    ensures ParseElements(x[1..]) == None
  {
    var y := x[8..];
    var s := "\"" + ("type" + ("\"" + (":" + y)));
    assert x == ",\"type\":" + y;
    assert x[1..] == s;
    StringRead("type", ":" + y);
    assert SkipWs(":" + y) == ":" + y;
  }

  /** A literal name is not completed by text starting with a comma. */
  lemma KeywordStays(t: string, word: string, v: Json, x: string)
    requires ',' !in word && Tail(x)
    ensures Keyword(t + x, word, v).Some? ==> Keyword(t, word, v).Some?
  {
    if |t| < |word| {
      assert (t + x)[|t|] == ',' && word[|t|] in word;
    } else {
      assert (t + x)[..|word|] == t[..|word|];
    }
  }

  lemma NumberStays(t: string, x: string)
    requires t != "" && Tail(x) && ParseNumber(t).None?
    ensures ParseNumber(t + x).None?
  {
    if SignLen(t) == 0 {
      UnsignedShapeMore(t, x);
    } else if |t| > 1 {
      SignedShapeMore(t, x);
    } else {
      assert (t + x)[1..] == x && SignLen(t + x) == 1;
    }
  }

  /** Words and numbers. */
  lemma ScalarStays(t: string, x: string)
    requires t != "" && Tail(x) && t[0] !in {'{', '[', '"'} && !IsWs(t[0]) && ParseValue(t).None?
    ensures ParseValue(t + x).None?
  {
    assert SkipWs(t) == t && SkipWs(t + x) == t + x && (t + x)[0] == t[0];
    if t[0] == 't' {
      KeywordStays(t, "true", JBool(true), x);
    } else if t[0] == 'f' {
      KeywordStays(t, "false", JBool(false), x);
    } else if t[0] == 'n' {
      KeywordStays(t, "null", JNull, x);
    } else {
      NumberStays(t, x);
    }
  }

  /** White space skipped first makes no difference to a value. */
  lemma {:induction false} SkipTwice(s: string)
    ensures SkipWs(SkipWs(s)) == SkipWs(s) && ParseValue(SkipWs(s)) == ParseValue(s)
    ensures SkipWs(s) != "" ==> !IsWs(SkipWs(s)[0])
  {
    if s != "" && IsWs(s[0]) { SkipTwice(s[1..]); }
  }

  /** A quote-free text that is unreadable as a value stays so before a tail. */
  lemma {:induction false} ValueStays(w: string, x: string)
    requires QuoteFree(w) && Tail(x) && ParseValue(w).None?
    ensures ParseValue(w + x).None?
    decreases |w|, 1
  {
    var t := SkipWs(w);
    FirstSeen(w, x);
    SkipsFree(w);
    SkipTwice(w);
    SkipTwice(w + x);
    if t == "" {
      assert t + x == x;
    } else {
      assert (t + x)[1..] == t[1..] + x && t[0] != '"';
      if t[0] == '{' {
        ObjectStays(t[1..], x);
      } else if t[0] == '[' {
        ArrayStays(t[1..], x);
      } else {
        ScalarStays(t, x);
      }
    }
  }

  lemma ObjectStays(w: string, x: string)
    requires QuoteFree(w) && Tail(x) && ParseObject(w).None?
    ensures ParseObject(w + x).None?
  {
    FirstSeen(w, x);
    MembersNone(w, x);
  }

  lemma {:induction false} ArrayStays(w: string, x: string)
    requires QuoteFree(w) && Tail(x) && ParseArray(w).None?
    ensures ParseArray(w + x).None?
    decreases |w|, 3
  {
    FirstSeen(w, x);
    ElementsStay(w, x);
  }

  lemma {:induction false} ElementsStay(w: string, x: string)
    requires QuoteFree(w) && Tail(x) && ParseElements(w).None?
    ensures ParseElements(w + x).None?
    decreases |w|, 2
  {
    if ParseValue(w).None? {
      ValueStays(w, x);
    } else {
      ValueMore(w, x);
      ValueRest(w);
      var r := ParseValue(w).value.1;
      SeparatorSeen(r, x, ']');
      SkipsFree(r);
      if SkipWs(r) == "" {
        TailElements(x);
      } else if SkipWs(r)[0] == ',' {
        ElementsStay(SkipWs(r)[1..], x);
      }
    }
  }

  // ------------------------------------------------------- an entry gone wrong

  /** The elements cannot be read, or something is left behind them. */
  predicate Unfinished(r: Option<(seq<Json>, string)>) {
    r.None? || SkipWs(r.value.1) != ""
  }

  lemma ElementsUnfinished(w: string, x: string)
    requires QuoteFree(w) && Tail(x)
    ensures Unfinished(ParseElements(w + x))
  {
    if ParseElements(w).None? {
      ElementsStay(w, x);
    } else {
      ElementsMore(w, x);
      ElementsRest(w);
      FirstSeen(ParseElements(w).value.1, x);
    }
  }

  /** After a value that is not the whole text, what follows the next character names no member. */
  lemma AfterValue(r: string, x: string) returns (t: string)
    requires QuoteFree(r) && SkipWs(r) != "" && Tail(x)
    ensures QuoteFree(t) && ParseMembers(t + x) == None
    ensures Separator(r + x, '}').Some? ==> Separator(r + x, '}').value.1 == t + x
  {
    SeparatorSeen(r, x, '}');
    SkipsFree(r);
    t := SkipWs(r)[1..];
    MembersNone(t, x);
  }

  /** Members from a value on that is no JSON text: unreadable, or the object is closed inside the value. */
  lemma NonJsonMembers(value: string, x: string) returns (t: string)
    requires QuoteFree(value) && ParseText(value).None? && Tail(x)
    ensures QuoteFree(t)
    ensures var r := ParseMembers(Named("value", value + x)); r.Some? ==> r.value.1 == t + x
  {
    t := "";
    NameRead("value", value + x);
    if ParseValue(value).None? {
      ValueStays(value, x);
    } else {
      ValueMore(value, x);
      ValueRest(value);
      t := AfterValue(ParseValue(value).value.1, x);
    }
  }

  /** A member before others: as much is left as they leave. */
  lemma MemberBefore(k: string, body: string, v: Json, rest: string)
    requires Plain(k) && ParseValue(body) == Some((v, "," + rest))
    ensures ParseMembers(Named(k, body)).Some? ==>
              ParseMembers(rest).Some? && ParseMembers(Named(k, body)).value.1 == ParseMembers(rest).value.1
  {
    NameRead(k, body);
    var r := "," + rest;
    assert SkipWs(r) == r && r[1..] == rest;
  }

  lemma ObjectLeaves(members: string)
    requires members != "" && members[0] == '"'
    ensures ParseValue("{" + members).Some? ==>
              ParseMembers(members).Some? && ParseValue("{" + members).value.1 == ParseMembers(members).value.1
  {
    var s := "{" + members;
    assert SkipWs(s) == s && s[1..] == members && SkipWs(members) == members;
    assert ParseValue(s) == ParseObject(members);
  }

  lemma NonJsonEntry(key: string, value: string, kind: string, z: string) returns (t: string)
    requires Plain(key) && QuoteFree(value) && ParseText(value).None?
    ensures QuoteFree(t)
    ensures var r := ParseValue(EntryThen(key, value, kind, z));
            r.Some? ==> r.value.1 == t + ("," + TypePart(kind, z))
  {
    var x := "," + TypePart(kind, z);
    assert Tail(x) by { TypeTail(kind, z); }
    t := NonJsonMembers(value, x);
    var rest := ValuePart(value, kind, z);
    StringRead(key, "," + rest);
    MemberBefore("key", "\"" + (key + ("\"" + ("," + rest))), JStr(key), rest);
    EntryText(key, value, kind, z);
    ObjectLeaves(KeyPart(key, value, kind, z));
  }

  lemma TypeTail(kind: string, z: string)
    ensures Tail("," + TypePart(kind, z))
  {
    var body := "\"" + (kind + ("\"" + ("," + FlagsPart(z))));
    assert ",\"type\":" == "," + ("\"" + ("type" + ("\"" + ":")));
    assert "," + TypePart(kind, z) == ",\"type\":" + body;
  }

  /** Elements whose first one ends inside the value. */
  lemma EntryUnfinished(s: string, t: string, x: string)
    requires QuoteFree(t) && Tail(x)
    requires ParseValue(s).Some? ==> ParseValue(s).value.1 == t + x
    ensures Unfinished(ParseElements(s))
  {
    SeparatorSeen(t, x, ']');
    SkipsFree(t);
    if SkipWs(t) == "" {
      TailElements(x);
    } else {
      var u := SkipWs(t)[1..];
      ElementsUnfinished(u, x);
      FirstSeen(u, x);
    }
  }

  // ------------------------------------------------------------ the whole array

  lemma NonJsonFirst(p: NodeParams, keys: seq<string>)
    requires keys != [] && PlainNames(p, keys) && keys[0] in p.params
    requires QuoteFree(p.params[keys[0]]) && ParseText(p.params[keys[0]]).None?
    ensures Unfinished(ParseElements(Body(p, keys) + "]"))
  {
    var k := keys[0];
    var rest := if |keys| == 1 then "]" else "," + (Body(p, keys[1..]) + "]");
    BodySplit(p, keys);
    EntryMore(k, p.params[k], KindIn(p, k), rest);
    var t := NonJsonEntry(k, p.params[k], KindIn(p, k), rest);
    TypeTail(KindIn(p, k), rest);
    EntryUnfinished(Body(p, keys) + "]", t, "," + TypePart(KindIn(p, k), rest));
  }

  lemma ElementsGoOn(s: string, v: Json, t: string)
    requires ParseValue(s) == Some((v, "," + t)) && Unfinished(ParseElements(t))
    ensures Unfinished(ParseElements(s))
  {
    var r := "," + t;
    assert SkipWs(r) == r && r[1..] == t;
  }

  /** Every value is a JSON text or free of quotation marks. */
  predicate JsonOrQuoteFree(p: NodeParams, keys: seq<string>) {
    forall k :: k in keys ==> k in p.params && (ParseText(p.params[k]).Some? || QuoteFree(p.params[k]))
  }

  lemma {:induction false} NonJsonBody(p: NodeParams, keys: seq<string>)
    requires PlainNames(p, keys) && JsonOrQuoteFree(p, keys) && !JsonValues(p, keys)
    ensures Unfinished(ParseElements(Body(p, keys) + "]"))
    decreases |keys|
  {
    assert keys[0] in keys;
    if ParseText(p.params[keys[0]]).None? {
      NonJsonFirst(p, keys);
    } else {
      var bad :| bad in keys && ParseText(p.params[bad]).None?;
      assert bad in keys[1..];
      var t := Body(p, keys[1..]) + "]";
      FirstItem(p, keys, "," + t);
      NonJsonBody(p, keys[1..]);
      ElementsGoOn(Body(p, keys) + "]", ItemOf(p, keys[0]), t);
    }
  }

  lemma ArrayUnfinished(b: string)
    requires b != "" && !IsWs(b[0]) && b[0] != ']' && Unfinished(ParseElements(b))
    ensures ParseText("[" + b) == None
  {
    OpenArray(b);
    assert SkipWs(b) == b;
  }

  /**
    The keys read back are the cached keys exactly when every value is a JSON
    text: one value that is not, and the Dart reader returns no parameter of
    the node at all.
   */
  lemma ReadsExactlyJson(p: NodeParams, keys: seq<string>)
    requires Lists(keys, p.params) && PlainNames(p, keys) && JsonOrQuoteFree(p, keys)
    ensures Deserialize(Printed(p, keys)).Keys == p.params.Keys <==> JsonValues(p, keys)
    ensures !JsonValues(p, keys) ==> Deserialize(Printed(p, keys)) == map[]
  {
    if JsonValues(p, keys) {
      ParamsRoundTrip(p, keys);
    } else {
      PrintedText(p, keys);
      BodyStart(p, keys);
      NonJsonBody(p, keys);
      ArrayUnfinished(Body(p, keys) + "]");
      assert keys[0] in p.params.Keys;
    }
  }

  /**
    Setting a parameter to a text that is no JSON text makes every parameter of
    the node unreadable, those set before included.
   */
  lemma SetTextLosesAll(cache: map<nat, NodeParams>, node: nat, key: string, value: string, keys: seq<string>)
    requires var p := Updated(cache, node, key, value, "String")[node];
             Lists(keys, p.params) && PlainNames(p, keys) && JsonOrQuoteFree(p, keys)
    requires QuoteFree(value) && ParseText(value).None?
    ensures Deserialize(CachedText(Updated(cache, node, key, value, "String"), node, keys)) == map[]
  {
    var p := Updated(cache, node, key, value, "String")[node];
    assert key in p.params && key in keys;
    ReadsExactlyJson(p, keys);
  }

  /** For example, the first parameter set on a node, to a list of channels. */
  lemma ChannelListLosesAll(node: nat)
    ensures var cache := Updated(map[], node, "channels", "FL,FR", "String");
            TextFor(cache, node, ["channels"]) && Deserialize(CachedText(cache, node, ["channels"])) == map[]
  {
    ChannelListIsNotJson();
    SetTextLosesAll(map[], node, "channels", "FL,FR", ["channels"]);
  }

  lemma ChannelListIsNotJson()
    ensures ParseText("FL,FR") == None
  {
    var value := "FL,FR";
    assert SkipWs(value) == value && value[0] == 'F';
    assert IntLen(value) == 0;
  }

  // --------------------------------------------------------- values with quotes

  /** A number, up to text that ends it. */
  lemma NumberValue(n: nat, x: string)
    requires Ends(x)
    ensures ParseValue(Decimal(n) + x) == Some((JNum(n), x))
  {
    NaturalReads(n, x);
    DecimalDigits(n);
    var s := Decimal(n) + x;
    assert s[0] == Decimal(n)[0] && SkipWs(s) == s;
  }

  const SMUGGLED := "1,\"note\":2"

  /** What the members from the value on read as. */
  function SmuggledFields(kind: string): map<string, Json> {
    map["value" := JNum(1)]
    + (map["note" := JNum(2)] + (map["type" := JStr(kind)] + map["flags" := JObj(FLAGS_JSON)]))
  }

  lemma SmuggledText(t: string)
    ensures SMUGGLED + ("," + t) == "1" + ("," + Named("note", "2" + ("," + t)))
  {
    var note := "\"" + ("note" + ("\"" + (":" + "2")));
    assert SMUGGLED == "1" + ("," + note);
    Unfold6("\"", "note", "\"", ":", "2", "", "," + t);
    assert "2" + "" == "2" && "" + ("," + t) == "," + t;
    assert note + ("," + t) == Named("note", "2" + ("," + t));
  }

  lemma SmuggledNote(kind: string, z: string)
    requires Plain(kind)
    ensures ParseMembers(Named("note", "2" + ("," + TypePart(kind, z))))
         == Some((map["note" := JNum(2)] + (map["type" := JStr(kind)] + map["flags" := JObj(FLAGS_JSON)]), z))
  {
    var t := TypePart(kind, z);
    TypePartRead(kind, z);
    NumberValue(2, "," + t);
    assert Decimal(2) == "2";
    MemberThen("note", "2" + ("," + t), JNum(2), t, map["type" := JStr(kind)] + map["flags" := JObj(FLAGS_JSON)], z);
  }

  lemma SmuggledMembers(kind: string, z: string)
    requires Plain(kind)
    ensures ParseMembers(ValuePart(SMUGGLED, kind, z)) == Some((SmuggledFields(kind), z))
  {
    var note := Named("note", "2" + ("," + TypePart(kind, z)));
    SmuggledText(TypePart(kind, z));
    SmuggledNote(kind, z);
    NumberValue(1, "," + note);
    assert Decimal(1) == "1";
    MemberThen("value", "1" + ("," + note), JNum(1), note,
               map["note" := JNum(2)] + (map["type" := JStr(kind)] + map["flags" := JObj(FLAGS_JSON)]), z);
  }

  lemma SmuggledParam(key: string, kind: string)
    ensures var r := ParamFromJson(JObj(map["key" := JStr(key)] + SmuggledFields(kind))); r.Some? && r.value.key == key
  {
    var f := map["key" := JStr(key)] + SmuggledFields(kind);
    assert f.Keys == {"key", "value", "note", "type", "flags"};
    assert "default" !in f && "min" !in f && "max" !in f;
    assert Get(f, "key") == JStr(key) && Get(f, "type") == JStr(kind) && Get(f, "flags") == JObj(FLAGS_JSON);
  }

  lemma SmuggledEntry(key: string, kind: string, z: string)
    requires Plain(key) && Plain(kind)
    ensures ParseValue(EntryThen(key, SMUGGLED, kind, z))
         == Some((JObj(map["key" := JStr(key)] + SmuggledFields(kind)), z))
  {
    var rest := ValuePart(SMUGGLED, kind, z);
    SmuggledMembers(kind, z);
    StringRead(key, "," + rest);
    MemberThen("key", "\"" + (key + ("\"" + ("," + rest))), JStr(key), rest, SmuggledFields(kind), z);
    ObjectRead(KeyPart(key, SMUGGLED, kind, z), map["key" := JStr(key)] + SmuggledFields(kind), z);
    EntryText(key, SMUGGLED, kind, z);
  }

  lemma SmuggledArray(p: NodeParams, key: string)
    requires p == NodeParams(map[key := SMUGGLED], map[key := "String"]) && Plain(key)
    ensures ParseText(Printed(p, [key])) == Some(JArr([JObj(map["key" := JStr(key)] + SmuggledFields("String"))]))
  {
    var b := Body(p, [key]) + "]";
    BodySplit(p, [key]);
    EntryMore(key, SMUGGLED, "String", "]");
    SmuggledEntry(key, "String", "]");
    assert "]" + "" == "]";
    ElementLast(b, JObj(map["key" := JStr(key)] + SmuggledFields("String")), "");
    BodyStart(p, [key]);
    ArrayRead(b);
    PrintedText(p, [key]);
  }

  /**
    A quotation mark in a value lets the condition fail: this value is no JSON
    text, and yet the keys come back, the value supplying a member of its own.
   */
  lemma QuotedValueSlipsThrough(key: string)
    requires Plain(key)
    ensures var p := NodeParams(map[key := SMUGGLED], map[key := "String"]);
            ParseText(SMUGGLED) == None && Deserialize(Printed(p, [key])).Keys == p.params.Keys
  {
    var p := NodeParams(map[key := SMUGGLED], map[key := "String"]);
    var item := JObj(map["key" := JStr(key)] + SmuggledFields("String"));
    SmuggledIsNotJson();
    SmuggledArray(p, key);
    SmuggledParam(key, "String");
    OneItem(item);
    ListDeserializes(Printed(p, [key]), [item], map[key := ParamFromJson(item).value]);
  }

  lemma SmuggledIsNotJson()
    ensures ParseText(SMUGGLED) == None
  {
    var rest := ",\"note\":2";
    NumberValue(1, rest);
    assert Decimal(1) == "1" && SMUGGLED == "1" + rest && SkipWs(rest) == rest;
  }

  lemma OneItem(item: Json)
    requires ParamFromJson(item).Some?
    ensures var x := ParamFromJson(item).value; ReadAll([item], ParamFromJson, KeyOf) == Some(map[x.key := x])
  {
    assert [item][..0] == [];
  }

  // ---------------------------------------------------- values that do come back

  /** A JSON text set as a parameter comes back as its value, and the node's other parameters as they were. */
  lemma SetJsonReadsBack(cache: map<nat, NodeParams>, node: nat, key: string, value: string, keys: seq<string>)
    requires var p := Updated(cache, node, key, value, "String")[node];
             Lists(keys, p.params) && PlainNames(p, keys) && JsonValues(p, keys)
    ensures ParseText(value).Some?
    ensures var r := Deserialize(CachedText(Updated(cache, node, key, value, "String"), node, keys));
            && key in r && r[key].value == ParseText(value).value && r[key].kind == StringType
            && forall k :: node in cache && k in cache[node].params && k != key ==>
                 ParseText(cache[node].params[k]).Some? && k in r && r[k] == ParamOf(cache[node], k)
  {
    var p := Updated(cache, node, key, value, "String")[node];
    assert key in p.params && key in keys;
    ParamsRoundTrip(p, keys);
    SetParams(cache, node, key, value);
  }

  /** What the node's parameters are after one is set. */
  lemma SetParams(cache: map<nat, NodeParams>, node: nat, key: string, value: string)
    requires var p := Updated(cache, node, key, value, "String")[node];
             forall k :: k in p.params ==> ParseText(p.params[k]).Some?
    ensures var r := ParamsOf(Updated(cache, node, key, value, "String")[node]);
            && key in r && r[key].value == ParseText(value).value && r[key].kind == StringType
            && forall k :: node in cache && k in cache[node].params && k != key ==>
                 ParseText(cache[node].params[k]).Some? && k in r && r[k] == ParamOf(cache[node], k)
  {
    var p := Updated(cache, node, key, value, "String")[node];
    assert p.params[key] == value && KindIn(p, key) == "String";
    if node in cache {
      forall k | k in cache[node].params && k != key
        ensures ParseText(cache[node].params[k]).Some? && k in p.params && ParamOf(p, k) == ParamOf(cache[node], k)
      {
        assert k in p.params && p.params[k] == cache[node].params[k];
        assert KindIn(p, k) == KindIn(cache[node], k);
      }
    }
  }

  /** A number given to setNodeParam, whose decimal text is what is cached, comes back as that number. */
  lemma SetNumberReadsBack(cache: map<nat, NodeParams>, node: nat, key: string, n: nat, keys: seq<string>)
    requires var p := Updated(cache, node, key, Decimal(n), "String")[node];
             && Lists(keys, p.params) && PlainNames(p, keys)
             && forall k :: k in keys && k != key ==> ParseText(p.params[k]).Some?
    ensures var r := Deserialize(CachedText(Updated(cache, node, key, Decimal(n), "String"), node, keys));
            key in r && r[key].value == JNum(n)
  {
    NumberValue(n, "");
    assert Decimal(n) + "" == Decimal(n);
    SetJsonReadsBack(cache, node, key, Decimal(n), keys);
  }

  /** Cached as a JSON string, as the cache is documented to hold it, any text comes back as itself. */
  lemma QuotedTextReadsBack(cache: map<nat, NodeParams>, node: nat, key: string, text: string, keys: seq<string>)
    requires var p := Updated(cache, node, key, Quote(text), "String")[node];
             && Lists(keys, p.params) && PlainNames(p, keys)
             && forall k :: k in keys && k != key ==> ParseText(p.params[k]).Some?
    ensures var r := Deserialize(CachedText(Updated(cache, node, key, Quote(text), "String"), node, keys));
            key in r && r[key].value == JStr(text)
  {
    QuoteIsText(text);
    SetJsonReadsBack(cache, node, key, Quote(text), keys);
  }
}
