/** Optional values, string maps and joined strings, shared by every module. */
module Prelude {

  datatype Option<+T> = None | Some(value: T)

  /** A string map: the C++ `std::map<std::string, std::string>` and Dart's `Map<String, String>`. */
  type Dict = map<string, string>

  /** `parts.join(sep)`. */
  function Join(parts: seq<string>, sep: string): string {
    if parts == [] then ""
    else if |parts| == 1 then parts[0]
    else parts[0] + (sep + Join(parts[1..], sep))
  }

  lemma {:induction false} JoinAppend(parts: seq<string>, sep: string, last: string)
    ensures Join(parts + [last], sep) == if parts == [] then last else Join(parts, sep) + (sep + last)
  {
    if parts == [] {
      assert [] + [last] == [last];
    } else {
      assert (parts + [last])[1..] == parts[1..] + [last];
      JoinAppend(parts[1..], sep, last);
      if |parts| == 1 {
        assert parts[1..] == [];
      } else {
        Associate(sep, Join(parts[1..], sep), sep + last);
        Associate(parts[0], sep + Join(parts[1..], sep), sep + last);
      }
    }
  }

  lemma Associate<T>(a: seq<T>, b: seq<T>, c: seq<T>)
    ensures a + b + c == a + (b + c)
  {
  }
}
