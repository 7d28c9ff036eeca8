/**
  The parameter cache, its hand-built JSON array, and the Dart reader of that
  text.
 */
module Params {
  import opened Prelude
  import opened JsonTree
  import opened JsonList
  import opened JsonText
  import Graph

  /** One node's parameters: each key's JSON value text and type name. */
  datatype NodeParams = NodeParams(params: Dict, types: Dict)

  // ----------------------------------------------------------------- the writer

  const FLAGS := "{\"readable\":true,\"writable\":true}"

  /** One entry followed by more text. */
  function EntryThen(key: string, value: string, kind: string, x: string): string {
    var typeOn := ",\"type\":\"" + (kind + ("\",\"flags\":" + (FLAGS + ("}" + x))));
    "{\"key\":\"" + (key + ("\",\"value\":" + (value + typeOn)))
  }

  function Entry(key: string, value: string, kind: string): string {
    EntryThen(key, value, kind, "")
  }

  function KindIn(p: NodeParams, key: string): string {
    if key in p.types then p.types[key] else "String"
  }

  function EntryOf(p: NodeParams, key: string): string
    requires key in p.params
  {
    Entry(key, p.params[key], KindIn(p, key))
  }

  function EntriesOf(p: NodeParams, keys: seq<string>): seq<string>
    requires forall k :: k in keys ==> k in p.params
  {
    seq(|keys|, i requires 0 <= i < |keys| => assert keys[i] in keys; EntryOf(p, keys[i]))
  }

  /** The entries of some keys, separated by commas. */
  function Body(p: NodeParams, keys: seq<string>): string
    requires forall k :: k in keys ==> k in p.params
  {
    Join(EntriesOf(p, keys), ",")
  }

  lemma BodyAppend(p: NodeParams, keys: seq<string>, k: string)
    requires k in p.params && forall x :: x in keys ==> x in p.params
    ensures Body(p, keys + [k]) == if keys == [] then EntryOf(p, k) else Body(p, keys) + ("," + EntryOf(p, k))
  {
    JoinAppend(EntriesOf(p, keys), ",", EntryOf(p, k));
    assert EntriesOf(p, keys + [k]) == EntriesOf(p, keys) + [EntryOf(p, k)];
  }

  function Printed(p: NodeParams, keys: seq<string>): string
    requires forall k :: k in keys ==> k in p.params
  {
    "[" + Body(p, keys) + "]"
  }

  /** The keys are those cached for the node, each once. */
  ghost predicate TextFor(cache: map<nat, NodeParams>, node: nat, keys: seq<string>) {
    node in cache ==> Lists(keys, cache[node].params)
  }

  /** The text for a node: an empty array when nothing is cached, else every entry once. */
  ghost function CachedText(cache: map<nat, NodeParams>, node: nat, keys: seq<string>): string
    requires TextFor(cache, node, keys)
  {
    if node in cache then Printed(cache[node], keys) else "[]"
  }

  /** A node's text, written in some order. */
  ghost predicate IsCachedText(cache: map<nat, NodeParams>, node: nat, json: string) {
    exists keys :: TextFor(cache, node, keys) && json == CachedText(cache, node, keys)
  }

  /** A cache after one key of one node is set: the node is made if it is new, and nothing else changes. */
  function Updated(cache: map<nat, NodeParams>, node: nat, key: string, value: string, kind: string)
    : map<nat, NodeParams>
  {
    var before := if node in cache then cache[node] else NodeParams(map[], map[]);
    cache[node := NodeParams(before.params[key := value], before.types[key := kind])]
  }

  /** The key has this value and type; every other key of the node, and every other node, is as it was. */
  lemma UpdatedExactly(cache: map<nat, NodeParams>, node: nat, key: string, value: string, kind: string)
    ensures var t := Updated(cache, node, key, value, kind);
            && t - {node} == cache - {node} && node in t
            && key in t[node].params && t[node].params[key] == value && KindIn(t[node], key) == kind
            && (node in cache ==> t[node].params - {key} == cache[node].params - {key}
                                  && t[node].types - {key} == cache[node].types - {key})
            && (node !in cache ==> t[node].params.Keys == t[node].types.Keys == {key})
  {
  }

  /** The handler's cache, whether it has a client, and the events it has posted through it. */
  class ParamHandler {
    const hasClient: bool
    var cache: map<nat, NodeParams>
    var posted: seq<Graph.GraphEvent>

    constructor (hasClient: bool)
      ensures this.hasClient == hasClient && cache == map[] && posted == []
    {
      this.hasClient := hasClient;
      cache, posted := map[], [];
    }

    method UpdateCache(node: nat, key: string, value: string, kind: string)
      modifies this`cache
      ensures cache == Updated(old(cache), node, key, value, kind)
    {
      var p := if node in cache then cache[node] else NodeParams(map[], map[]);
      p := p.(params := p.params[key := value]);
      p := p.(types := p.types[key := kind]);
      cache := cache[node := p];
    }

    /**
      set_param, given what reading the request text gave: -1 without a
      client, -2 when it could not be read, both without effect; else the
      decoded value is cached as the key's value text and posted.
     */
    method SetParam(node: nat, update: Option<(string, string)>) returns (r: int)
      modifies this`cache, this`posted
      ensures r == if !hasClient then -1 else if update.None? then -2 else 0
      ensures cache == if r != 0 then old(cache)
                       else Updated(old(cache), node, update.value.0, update.value.1, "String")
      ensures posted == if r != 0 then old(posted)
                        else old(posted) + [Graph.ParamChangedEvent(node, update.value.0, update.value.1)]
    {
      if !hasClient { return -1; }
      if update.None? { return -2; }
      UpdateCache(node, update.value.0, update.value.1, "String");
      posted := posted + [Graph.ParamChangedEvent(node, update.value.0, update.value.1)];
      return 0;
    }

    /** enum_params: posts the cached parameters as one event, unless there is no client or registry monitor. */
    method EnumParams(node: nat, monitored: bool)
      modifies this`posted
      ensures !hasClient || !monitored ==> posted == old(posted)
      ensures hasClient && monitored ==>
                exists json :: IsCachedText(cache, node, json)
                            && posted == old(posted) + [Graph.ParamChangedEvent(node, "_enum_complete", json)]
    {
      if !hasClient || !monitored { return; }
      var json := GetCachedParamsJson(node);
      posted := posted + [Graph.ParamChangedEvent(node, "_enum_complete", json)];
    }

    method ClearCache(node: nat)
      modifies this`cache
      ensures cache == old(cache) - {node}
    {
      cache := cache - {node};
    }

    method GetCachedParamsJson(node: nat) returns (json: string)
      ensures IsCachedText(cache, node, json)
    {
      ghost var keys: seq<string> := [];
      if node !in cache {
        assert TextFor(cache, node, keys);
        return "[]";
      }
      var p := cache[node];
      json := "[";
      var first := true;
      var left := p.params.Keys;
      while left != {}
        invariant left <= p.params.Keys
        invariant forall i, j :: 0 <= i < j < |keys| ==> keys[i] != keys[j]
        invariant forall k :: k in keys <==> k in p.params && k !in left
        invariant first <==> keys == []
        invariant json == "[" + Body(p, keys)
        decreases left
      {
        var key :| key in left;
        left := left - {key};
        BodyAppend(p, keys, key);
        var entry := EntryOf(p, key);
        Associate("[", Body(p, keys), "," + entry);
        Associate("[" + Body(p, keys), ",", entry);
        if !first { json := json + ","; }
        first := false;
        json := json + entry;
        keys := keys + [key];
      }
      json := json + "]";
      assert TextFor(cache, node, keys);
    }
  }

  // ----------------------------------------------------------------- the reader

  datatype ParamType = IntType | FloatType | DoubleType | StringType | BoolType | BytesType | UnknownType

  datatype PwParam = PwParam(key: string, value: Json, kind: ParamType, readable: bool, writable: bool,
                             default: Json, min: Json, max: Json)

  function ParamTypeOf(s: string): ParamType {
    if s == "Int" || s == "int" then IntType
    else if s == "Float" || s == "float" then FloatType
    else if s == "Double" || s == "double" then DoubleType
    else if s == "String" || s == "string" then StringType
    else if s == "Bool" || s == "bool" then BoolType
    else if s == "Bytes" || s == "bytes" then BytesType
    else UnknownType
  }

  /** Readable and writable, from the flags object or its absence. */
  function FlagsFrom(j: Json): Option<(bool, bool)> {
    match j
    case JNull => Some((true, false))
    case JObj(f) =>
      (match (AsBoolOr(Get(f, "readable"), true), AsBoolOr(Get(f, "writable"), false))
       case (Some(r), Some(w)) => Some((r, w))
       case _ => None)
    case _ => None
  }

  function ParamFromJson(j: Json): Option<PwParam> {
    if !j.JObj? then None else
    var f := j.fields;
    match (Get(f, "key"), AsStringOr(Get(f, "type"), "unknown"), FlagsFrom(Get(f, "flags")))
    case (JStr(key), Some(kind), Some((r, w))) =>
      Some(PwParam(key, Get(f, "value"), ParamTypeOf(kind), r, w, Get(f, "default"), Get(f, "min"), Get(f, "max")))
    case _ => None
  }

  function KeyOf(p: PwParam): string { p.key }

  /** `deserializeParams`: malformed text, a non-list or an unreadable element all give an empty map. */
  function Deserialize(text: string): map<string, PwParam> {
    match ParseText(text)
    case Some(JArr(items)) =>
      (match ReadAll(items, ParamFromJson, KeyOf) case Some(m) => m case None => map[])
    case _ => map[]
  }

  method DeserializeParams(text: string) returns (m: map<string, PwParam>)
    ensures m == Deserialize(text)
  {
    var json := ParseText(text);
    if json.None? || !json.value.JArr? { return map[]; }
    var read := ReadLoop(json.value.items, ParamFromJson, KeyOf);
    m := if read.Some? then read.value else map[];
  }

  // ------------------------------------------------------------ reading entries

  lemma {:induction false} PlainString(k: string, rest: string)
    requires Plain(k)
    ensures ParseString(k + ("\"" + rest)) == Some((k, rest))
  {
    var s := k + ("\"" + rest);
    if k == "" {
      assert s == "\"" + rest && s[1..] == rest;
    } else {
      assert s[0] == k[0] && s[1..] == k[1..] + ("\"" + rest);
      PlainString(k[1..], rest);
      assert [k[0]] + k[1..] == k;
    }
  }

  /** A quoted name and its colon. */
  function Named(k: string, body: string): string {
    "\"" + (k + ("\"" + (":" + body)))
  }

  lemma NameRead(k: string, body: string)
    requires Plain(k)
    ensures ParseName(Named(k, body)) == Some((k, body))
  {
    var s := Named(k, body);
    assert SkipWs(s) == s && s[1..] == k + ("\"" + (":" + body));
    PlainString(k, ":" + body);
    var u := ":" + body;
    assert SkipWs(u) == u && u[1..] == body;
  }

  /** A member whose value may be followed by white space, then by more members. */
  lemma MemberOver(k: string, body: string, t: string, m: map<string, Json>, u: string)
    requires Plain(k) && ParseValue(body).Some? && Separator(ParseValue(body).value.1, '}') == Some((true, t))
    requires ParseMembers(t) == Some((m, u))
    ensures ParseMembers(Named(k, body)) == Some((map[k := ParseValue(body).value.0] + m, u))
  {
    NameRead(k, body);
  }

  /** A member followed by more members. */
  lemma MemberThen(k: string, body: string, v: Json, t: string, m: map<string, Json>, u: string)
    requires Plain(k) && ParseValue(body) == Some((v, "," + t)) && ParseMembers(t) == Some((m, u))
    ensures ParseMembers(Named(k, body)) == Some((map[k := v] + m, u))
  {
    NameRead(k, body);
    var r := "," + t;
    assert SkipWs(r) == r && r[1..] == t;
  }

  /** The last member of an object. */
  lemma MemberLast(k: string, body: string, v: Json, t: string)
    requires Plain(k) && ParseValue(body) == Some((v, "}" + t))
    ensures ParseMembers(Named(k, body)) == Some((map[k := v], t))
  {
    NameRead(k, body);
    var r := "}" + t;
    assert SkipWs(r) == r && r[1..] == t;
  }

  lemma ObjectRead(members: string, m: map<string, Json>, u: string)
    requires ParseMembers(members) == Some((m, u)) && members != "" && members[0] == '"'
    ensures ParseValue("{" + members) == Some((JObj(m), u))
  {
    var s := "{" + members;
    assert SkipWs(s) == s && s[1..] == members && SkipWs(members) == members;
  }

  lemma TrueRead(x: string)
    ensures ParseValue("true" + x) == Some((JBool(true), x))
  {
    var s := "true" + x;
    assert SkipWs(s) == s && s[0] == 't' && "true" <= s && s[4..] == x;
  }

  lemma StringRead(k: string, x: string)
    requires Plain(k)
    ensures ParseValue("\"" + (k + ("\"" + x))) == Some((JStr(k), x))
  {
    var s := "\"" + (k + ("\"" + x));
    assert SkipWs(s) == s && s[1..] == k + ("\"" + x);
    PlainString(k, x);
  }

  /** A cached value text, inside the entry: read as itself, up to the comma after it. */
  lemma ValueRead(value: string, x: string)
    requires ParseText(value).Some?
    ensures ParseValue(value + ("," + x)).Some?
    ensures ParseValue(value + ("," + x)).value.0 == ParseText(value).value
    ensures Separator(ParseValue(value + ("," + x)).value.1, '}') == Some((true, x))
  {
    ValueMore(value, "," + x);
    var ws := ParseValue(value).value.1;
    SkipWsAll(ws, "," + x);
    assert ("," + x)[1..] == x;
  }

  const FLAGS_JSON := map["readable" := JBool(true)] + map["writable" := JBool(true)]

  /** A literal prefix of six pieces, taken apart before more text. */
  lemma Unfold6(a: string, b: string, c: string, d: string, e: string, f: string, x: string)
    ensures a + (b + (c + (d + (e + f)))) + x == a + (b + (c + (d + (e + (f + x)))))
  {
    Associate(e, f, x);
    Associate(d, e + f, x);
    Associate(c, d + (e + f), x);
    Associate(b, c + (d + (e + f)), x);
    Associate(a, b + (c + (d + (e + f))), x);
  }

  lemma FlagsText(x: string)
    ensures FLAGS + x == "{" + Named("readable", "true" + ("," + Named("writable", "true" + ("}" + x))))
  {
    var tail := Named("writable", "true" + ("}" + x));
    assert "\"writable\":true}" == "\"" + ("writable" + ("\"" + (":" + ("true" + "}"))));
    Unfold6("\"", "writable", "\"", ":", "true", "}", x);
    assert "\"writable\":true}" + x == tail;
    assert "{\"readable\":true," == "{" + ("\"" + ("readable" + ("\"" + (":" + "true,"))));
    Unfold6("{", "\"", "readable", "\"", ":", "true,", tail);
    assert "true," == "true" + ",";
    Associate("true", ",", tail);
    Associate("{\"readable\":true,", "\"writable\":true}", x);
    assert FLAGS == "{\"readable\":true," + "\"writable\":true}";
  }

  lemma FlagsRead(x: string)
    ensures ParseValue(FLAGS + x) == Some((JObj(FLAGS_JSON), x))
  {
    var w := "true" + ("}" + x);
    TrueRead("}" + x);
    MemberLast("writable", w, JBool(true), x);
    var t := Named("writable", w);
    var r := "true" + ("," + t);
    TrueRead("," + t);
    MemberThen("readable", r, JBool(true), t, map["writable" := JBool(true)], x);
    ObjectRead(Named("readable", r), FLAGS_JSON, x);
    FlagsText(x);
  }

  /** What an entry reads as. */
  function EntryJson(key: string, v: Json, kind: string): map<string, Json> {
    map["key" := JStr(key)] + (map["value" := v] + (map["type" := JStr(kind)] + map["flags" := JObj(FLAGS_JSON)]))
  }

  function FlagsPart(x: string): string {
    Named("flags", FLAGS + ("}" + x))
  }

  function TypePart(kind: string, x: string): string {
    Named("type", "\"" + (kind + ("\"" + ("," + FlagsPart(x)))))
  }

  function ValuePart(value: string, kind: string, x: string): string {
    Named("value", value + ("," + TypePart(kind, x)))
  }

  function KeyPart(key: string, value: string, kind: string, x: string): string {
    Named("key", "\"" + (key + ("\"" + ("," + ValuePart(value, kind, x)))))
  }

  lemma TypePartRead(kind: string, x: string)
    requires Plain(kind)
    ensures ParseMembers(TypePart(kind, x)) == Some((map["type" := JStr(kind)] + map["flags" := JObj(FLAGS_JSON)], x))
  {
    FlagsRead("}" + x);
    MemberLast("flags", FLAGS + ("}" + x), JObj(FLAGS_JSON), x);
    StringRead(kind, "," + FlagsPart(x));
    MemberThen("type", "\"" + (kind + ("\"" + ("," + FlagsPart(x)))), JStr(kind), FlagsPart(x),
               map["flags" := JObj(FLAGS_JSON)], x);
  }

  lemma ValuePartRead(value: string, kind: string, x: string)
    requires ParseText(value).Some? && Plain(kind)
    ensures ParseMembers(ValuePart(value, kind, x))
         == Some((map["value" := ParseText(value).value]
                  + (map["type" := JStr(kind)] + map["flags" := JObj(FLAGS_JSON)]), x))
  {
    TypePartRead(kind, x);
    ValueRead(value, TypePart(kind, x));
    MemberOver("value", value + ("," + TypePart(kind, x)), TypePart(kind, x),
               map["type" := JStr(kind)] + map["flags" := JObj(FLAGS_JSON)], x);
  }

  lemma EntryRead(key: string, value: string, kind: string, x: string)
    requires Plain(key) && ParseText(value).Some? && Plain(kind)
    ensures ParseValue(EntryThen(key, value, kind, x))
         == Some((JObj(EntryJson(key, ParseText(value).value, kind)), x))
  {
    ValuePartRead(value, kind, x);
    StringRead(key, "," + ValuePart(value, kind, x));
    MemberThen("key", "\"" + (key + ("\"" + ("," + ValuePart(value, kind, x)))), JStr(key),
               ValuePart(value, kind, x),
               map["value" := ParseText(value).value] + (map["type" := JStr(kind)] + map["flags" := JObj(FLAGS_JSON)]),
               x);
    ObjectRead(KeyPart(key, value, kind, x), EntryJson(key, ParseText(value).value, kind), x);
    EntryText(key, value, kind, x);
  }

  /** The literal pieces between the three variable texts, before more text. */
  lemma Pieces(y: string)
    ensures "\",\"flags\":" + y == "\"" + ("," + Named("flags", y))
    ensures ",\"type\":\"" + y == "," + Named("type", "\"" + y)
    ensures "\",\"value\":" + y == "\"" + ("," + Named("value", y))
    ensures "{\"key\":\"" + y == "{" + Named("key", "\"" + y)
  {
    assert "\",\"flags\":" == "\"" + ("," + ("\"" + ("flags" + ("\"" + ":"))));
    Unfold6("\"", ",", "\"", "flags", "\"", ":", y);
    assert ",\"type\":\"" == "," + ("\"" + ("type" + ("\"" + (":" + "\""))));
    Unfold6(",", "\"", "type", "\"", ":", "\"", y);
    assert "\",\"value\":" == "\"" + ("," + ("\"" + ("value" + ("\"" + ":"))));
    Unfold6("\"", ",", "\"", "value", "\"", ":", y);
    assert "{\"key\":\"" == "{" + ("\"" + ("key" + ("\"" + (":" + "\""))));
    Unfold6("{", "\"", "key", "\"", ":", "\"", y);
  }

  /** The written entry is the object of its four members. */
  lemma EntryText(key: string, value: string, kind: string, x: string)
    ensures EntryThen(key, value, kind, x) == "{" + KeyPart(key, value, kind, x)
  {
    var f := FLAGS + ("}" + x);
    Pieces(f);
    var t := kind + ("\",\"flags\":" + f);
    Pieces(t);
    var v := value + (",\"type\":\"" + t);
    Pieces(v);
    Pieces(key + ("\",\"value\":" + v));
  }

  /** Text after an entry is text after it in the longer form. */
  lemma EntryMore(key: string, value: string, kind: string, x: string)
    ensures Entry(key, value, kind) + x == EntryThen(key, value, kind, x)
  {
    var c := "}" + "";
    Associate("}", "", x);
    assert "" + x == x;
    Associate(FLAGS, c, x);
    var f := FLAGS + c;
    Associate("\",\"flags\":", f, x);
    var f1 := "\",\"flags\":" + f;
    Associate(kind, f1, x);
    var k := kind + f1;
    Associate(",\"type\":\"", k, x);
    var k1 := ",\"type\":\"" + k;
    Associate(value, k1, x);
    var v := value + k1;
    Associate("\",\"value\":", v, x);
    var v1 := "\",\"value\":" + v;
    Associate(key, v1, x);
    Associate("{\"key\":\"", key + v1, x);
  }

  // ------------------------------------------------------------------ round trip

  /** Names that need no escaping. */
  predicate PlainNames(p: NodeParams, keys: seq<string>) {
    forall k :: k in keys ==> k in p.params && Plain(k) && Plain(KindIn(p, k))
  }

  /** The cache's documented contents: every value is a JSON text. */
  predicate JsonValues(p: NodeParams, keys: seq<string>) {
    forall k :: k in keys ==> k in p.params && ParseText(p.params[k]).Some?
  }

  function ItemOf(p: NodeParams, key: string): Json
    requires key in p.params && ParseText(p.params[key]).Some?
  {
    JObj(EntryJson(key, ParseText(p.params[key]).value, KindIn(p, key)))
  }

  function ItemsOf(p: NodeParams, keys: seq<string>): seq<Json>
    requires JsonValues(p, keys)
  {
    seq(|keys|, i requires 0 <= i < |keys| => assert keys[i] in keys; ItemOf(p, keys[i]))
  }

  lemma BodySplit(p: NodeParams, keys: seq<string>)
    requires keys != [] && forall k :: k in keys ==> k in p.params
    ensures Body(p, keys) + "]"
         == EntryOf(p, keys[0]) + if |keys| == 1 then "]" else "," + (Body(p, keys[1..]) + "]")
  {
    assert EntriesOf(p, keys)[1..] == EntriesOf(p, keys[1..]);
    if |keys| > 1 {
      Associate(",", Body(p, keys[1..]), "]");
      Associate(EntryOf(p, keys[0]), "," + Body(p, keys[1..]), "]");
    }
  }

  /** The first entry of a body, and the text after it. */
  lemma FirstItem(p: NodeParams, keys: seq<string>, rest: string)
    requires keys != [] && PlainNames(p, keys) && keys[0] in p.params && ParseText(p.params[keys[0]]).Some?
    requires rest == if |keys| == 1 then "]" else "," + (Body(p, keys[1..]) + "]")
    ensures ParseValue(Body(p, keys) + "]") == Some((ItemOf(p, keys[0]), rest))
  {
    var k := keys[0];
    BodySplit(p, keys);
    EntryMore(k, p.params[k], KindIn(p, k), rest);
    EntryRead(k, p.params[k], KindIn(p, k), rest);
  }

  /** The last element of an array. */
  lemma ElementLast(s: string, v: Json, t: string)
    requires ParseValue(s) == Some((v, "]" + t))
    ensures ParseElements(s) == Some(([v], t))
  {
    var r := "]" + t;
    assert SkipWs(r) == r && r[1..] == t;
  }

  /** An element followed by more. */
  lemma ElementThen(s: string, v: Json, t: string, vs: seq<Json>, u: string)
    requires ParseValue(s) == Some((v, "," + t)) && ParseElements(t) == Some((vs, u))
    ensures ParseElements(s) == Some(([v] + vs, u))
  {
    var r := "," + t;
    assert SkipWs(r) == r && r[1..] == t;
  }

  lemma ItemAt(p: NodeParams, keys: seq<string>, i: nat)
    requires JsonValues(p, keys) && i < |keys|
    ensures keys[i] in keys && ItemsOf(p, keys)[i] == ItemOf(p, keys[i])
  {
  }

  lemma Headed<T>(a: seq<T>, x: T, b: seq<T>)
    requires |a| == |b| + 1 && a[0] == x
    requires forall i :: 0 <= i < |b| ==> a[i + 1] == b[i]
    ensures a == [x] + b
  {
  }

  lemma ItemsSplit(p: NodeParams, keys: seq<string>)
    requires keys != [] && JsonValues(p, keys)
    ensures ItemsOf(p, keys) == [ItemOf(p, keys[0])] + ItemsOf(p, keys[1..])
  {
    var a, b := ItemsOf(p, keys), ItemsOf(p, keys[1..]);
    ItemAt(p, keys, 0);
    forall i | 0 <= i < |b| ensures a[i + 1] == b[i] {
      ItemAt(p, keys, i + 1);
      ItemAt(p, keys[1..], i);
    }
    Headed(a, ItemOf(p, keys[0]), b);
  }

  lemma {:induction false} BodyRead(p: NodeParams, keys: seq<string>)
    requires keys != [] && PlainNames(p, keys) && JsonValues(p, keys)
    ensures ParseElements(Body(p, keys) + "]") == Some((ItemsOf(p, keys), ""))
    decreases |keys|
  {
    var text := Body(p, keys) + "]";
    ItemsSplit(p, keys);
    if |keys| == 1 {
      FirstItem(p, keys, "]");
      assert "]" + "" == "]";
      assert ItemsOf(p, keys) == [ItemOf(p, keys[0])];
      ElementLast(text, ItemOf(p, keys[0]), "");
    } else {
      var t := Body(p, keys[1..]) + "]";
      FirstItem(p, keys, "," + t);
      BodyRead(p, keys[1..]);
      ElementThen(text, ItemOf(p, keys[0]), t, ItemsOf(p, keys[1..]), "");
    }
  }

  lemma BodyStart(p: NodeParams, keys: seq<string>)
    requires keys != [] && forall k :: k in keys ==> k in p.params
    ensures (Body(p, keys) + "]") != "" && (Body(p, keys) + "]")[0] == '{'
  {
    BodySplit(p, keys);
    var rest := if |keys| == 1 then "]" else "," + (Body(p, keys[1..]) + "]");
    EntryMore(keys[0], p.params[keys[0]], KindIn(p, keys[0]), rest);
  }

  lemma OpenArray(b: string)
    ensures ParseValue("[" + b) == ParseArray(b)
  {
    var s := "[" + b;
    assert SkipWs(s) == s && s[0] == '[' && s[1..] == b;
  }

  /** An array text that does not start with its closing bracket is read by its elements. */
  lemma ArrayRead(b: string)
    requires b != "" && !IsWs(b[0]) && b[0] != ']'
    ensures ParseElements(b).None? ==> ParseText("[" + b) == None
    ensures ParseElements(b).Some? && ParseElements(b).value.1 == ""
            ==> ParseText("[" + b) == Some(JArr(ParseElements(b).value.0))
  {
    OpenArray(b);
    assert SkipWs(b) == b;
  }

  lemma EmptyArrayRead()
    ensures ParseText("[]") == Some(JArr([]))
  {
    OpenArray("]");
    assert "[" + "]" == "[]" && SkipWs("]") == "]" && "]"[1..] == "";
  }

  lemma PrintedText(p: NodeParams, keys: seq<string>)
    requires forall k :: k in keys ==> k in p.params
    ensures Printed(p, keys) == "[" + (Body(p, keys) + "]")
    ensures keys == [] ==> Printed(p, keys) == "[]"
  {
    Associate("[", Body(p, keys), "]");
  }

  /** The printed array is JSON text, holding one object per key. */
  lemma PrintedRead(p: NodeParams, keys: seq<string>)
    requires PlainNames(p, keys) && JsonValues(p, keys)
    ensures ParseText(Printed(p, keys)) == Some(JArr(ItemsOf(p, keys)))
  {
    PrintedText(p, keys);
    if keys == [] {
      EmptyArrayRead();
      assert ItemsOf(p, keys) == [];
    } else {
      BodyStart(p, keys);
      BodyRead(p, keys);
      ArrayRead(Body(p, keys) + "]");
    }
  }

  /** The parameter a cached key stands for. */
  function ParamOf(p: NodeParams, key: string): PwParam
    requires key in p.params && ParseText(p.params[key]).Some?
  {
    PwParam(key, ParseText(p.params[key]).value, ParamTypeOf(KindIn(p, key)), true, true, JNull, JNull, JNull)
  }

  function ParamsOf(p: NodeParams): map<string, PwParam>
    requires forall k :: k in p.params ==> ParseText(p.params[k]).Some?
  {
    map k | k in p.params :: ParamOf(p, k)
  }

  lemma ItemReadsBack(p: NodeParams, key: string)
    requires key in p.params && ParseText(p.params[key]).Some?
    ensures ParamFromJson(ItemOf(p, key)) == Some(ParamOf(p, key))
  {
    var f := EntryJson(key, ParseText(p.params[key]).value, KindIn(p, key));
    assert Get(f, "key") == JStr(key) && Get(f, "value") == ParseText(p.params[key]).value;
    assert Get(f, "type") == JStr(KindIn(p, key)) && Get(f, "flags") == JObj(FLAGS_JSON);
    assert Get(f, "default") == JNull && Get(f, "min") == JNull && Get(f, "max") == JNull;
  }

  lemma ItemsReadBack(p: NodeParams, keys: seq<string>)
    requires Lists(keys, p.params) && JsonValues(p, keys)
    ensures forall k :: k in p.params ==> ParseText(p.params[k]).Some?
    ensures ReadAll(ItemsOf(p, keys), ParamFromJson, KeyOf) == Some(ParamsOf(p))
  {
    var items, r := ItemsOf(p, keys), ParamsOf(p);
    forall i | 0 <= i < |keys|
      ensures keys[i] in r && ParamFromJson(items[i]) == Some(r[keys[i]])
    {
      assert keys[i] in keys;
      assert items[i] == ItemOf(p, keys[i]);
      ItemReadsBack(p, keys[i]);
    }
    ReadFullListing(items, ParamFromJson, KeyOf, keys, r);
  }

  /** What a list's text reads as. */
  lemma ListDeserializes(text: string, items: seq<Json>, m: map<string, PwParam>)
    requires ParseText(text) == Some(JArr(items)) && ReadAll(items, ParamFromJson, KeyOf) == Some(m)
    ensures Deserialize(text) == m
  {
  }

  /**
    The params text round trip: for every cache whose names need no escaping
    and whose values are JSON texts, in whatever order the entries are written,
    the Dart reader gets back exactly the cached keys, values and types.
   */
  lemma ParamsRoundTrip(p: NodeParams, keys: seq<string>)
    requires Lists(keys, p.params) && PlainNames(p, keys) && JsonValues(p, keys)
    ensures forall k :: k in p.params ==> ParseText(p.params[k]).Some?
    ensures Deserialize(Printed(p, keys)) == ParamsOf(p)
  {
    PrintedRead(p, keys);
    ItemsReadBack(p, keys);
    ListDeserializes(Printed(p, keys), ItemsOf(p, keys), ParamsOf(p));
  }

  // ------------------------------------------------------------- one parameter

  /** `PwParamType.toJsonString`. */
  function TypeName(t: ParamType): string {
    match t
    case IntType => "Int"
    case FloatType => "Float"
    case DoubleType => "Double"
    case StringType => "String"
    case BoolType => "Bool"
    case BytesType => "Bytes"
    case UnknownType => "Unknown"
  }

  function SmallName(t: ParamType): string {
    match t
    case IntType => "int"
    case FloatType => "float"
    case DoubleType => "double"
    case StringType => "string"
    case BoolType => "bool"
    case BytesType => "bytes"
    case UnknownType => "unknown"
  }

  /** A type's name, with or without its capital, reads as the type; every other name is unknown. */
  lemma TypesReadBack(t: ParamType)
    ensures ParamTypeOf(TypeName(t)) == ParamTypeOf(SmallName(t)) == t
    ensures forall s :: ParamTypeOf(s) == t != UnknownType ==> s == TypeName(t) || s == SmallName(t)
  {
  }

  /** A member that is written only when there is something to write. */
  function Optional(key: string, j: Json): map<string, Json> {
    if j == JNull then map[] else map[key := j]
  }

  /** `PwParam.toJson`. */
  function ParamToJson(p: PwParam): Json {
    JObj(map["key" := JStr(p.key), "value" := p.value, "type" := JStr(TypeName(p.kind)),
             "flags" := JObj(map["readable" := JBool(p.readable), "writable" := JBool(p.writable)])]
         + Optional("default", p.default) + Optional("min", p.min) + Optional("max", p.max))
  }

  lemma ParamFields(p: PwParam)
    ensures var f := ParamToJson(p).fields;
            && Get(f, "key") == JStr(p.key) && Get(f, "value") == p.value && Get(f, "type") == JStr(TypeName(p.kind))
            && Get(f, "flags") == JObj(map["readable" := JBool(p.readable), "writable" := JBool(p.writable)])
            && Get(f, "default") == p.default && Get(f, "min") == p.min && Get(f, "max") == p.max
  {
  }

  lemma FlagsReadBack(readable: bool, writable: bool)
    ensures FlagsFrom(JObj(map["readable" := JBool(readable), "writable" := JBool(writable)]))
         == Some((readable, writable))
  {
  }

  lemma ParamRoundTrip(p: PwParam)
    ensures ParamFromJson(ParamToJson(p)) == Some(p)
  {
    TypesReadBack(p.kind);
    ParamFields(p);
    FlagsReadBack(p.readable, p.writable);
  }

  /** A parameter that says only its key is of unknown type, readable and not writable. */
  lemma BareParam(key: string)
    ensures ParamFromJson(JObj(map["key" := JStr(key)]))
         == Some(PwParam(key, JNull, UnknownType, true, false, JNull, JNull, JNull))
  {
  }
}
