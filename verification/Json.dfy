/**
  JSON trees as Dart's `jsonDecode` returns them, and the casts the Dart
  readers apply to them. A failed cast is a thrown TypeError, modelled as None.
 */
module JsonTree {
  import opened Prelude

  datatype Json =
    | JNull
    | JBool(b: bool)
    | JNum(n: int)
    | JReal(lexeme: string) // a numeral with a fraction or exponent, kept as written
    | JStr(s: string)
    | JArr(items: seq<Json>)
    | JObj(fields: map<string, Json>)

  /** `json[key]`: null when the key is absent. */
  function Get(j: map<string, Json>, key: string): Json {
    if key in j then j[key] else JNull
  }

  /** `json[key] as int`, for the non-negative ids of this protocol. */
  function AsId(j: Json): Option<nat> {
    if j.JNum? && j.n >= 0 then Some(j.n) else None
  }

  /** `(json[key] as String?) ?? default`. */
  function AsStringOr(j: Json, default: string): Option<string> {
    match j
    case JNull => Some(default)
    case JStr(s) => Some(s)
    case _ => None
  }

  /** `(json[key] as bool?) ?? default`. */
  function AsBoolOr(j: Json, default: bool): Option<bool> {
    match j
    case JNull => Some(default)
    case JBool(b) => Some(b)
    case _ => None
  }

  function Decimal(n: nat): string {
    if n < 10 then [DigitChar(n)] else Decimal(n / 10) + [DigitChar(n % 10)]
  }

  function DigitChar(d: nat): char
    requires d < 10
  {
    "0123456789"[d]
  }

  /** Dart's `toString()` on strings, integers, booleans and null; other values are not read as text here. */
  function ToText(j: Json): Option<string> {
    match j
    case JNull => Some("null")
    case JBool(b) => Some(if b then "true" else "false")
    case JNum(n) => Some(if n < 0 then "-" + Decimal(-n) else Decimal(n))
    case JStr(s) => Some(s)
    case _ => None
  }

  /** `(json[key] as Map?)?.map((k, v) => MapEntry(k.toString(), v.toString())) ?? const {}`. */
  function AsDict(j: Json): Option<Dict> {
    match j
    case JNull => Some(map[])
    case JObj(fields) =>
      if forall k :: k in fields ==> ToText(fields[k]).Some?
      then Some(map k | k in fields :: ToText(fields[k]).value)
      else None
    case _ => None
  }

  function OfDict(d: Dict): Json {
    JObj(map k | k in d :: JStr(d[k]))
  }

  lemma DictRoundTrip(d: Dict)
    ensures AsDict(OfDict(d)) == Some(d)
  {
    assert (map k | k in d :: ToText((map k' | k' in d :: JStr(d[k']))[k]).value) == d;
  }
}
