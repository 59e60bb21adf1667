/**
 * JavaScript values as the emulated backend stores them: the data passed to
 * `set` and `push`, the fields of account, product and order records, and the
 * chat transcript. Numbers are integers (floating point is not modelled).
 */
module JsValues {

  datatype Value =
    | Undefined
    | Null
    | Bool(b: bool)
    | Num(n: int)
    | Str(s: string)
    | List(elems: seq<Value>)
    | Object(fields: Record)

  /** A plain JavaScript object: field name to value. */
  type Record = map<string, Value>

  /** `obj.key`: a missing field reads as `undefined`. */
  function Field(obj: Record, key: string): Value {
    if key in obj then obj[key] else Undefined
  }

  /** The own fields that the object spread `{...v}` copies. */
  function Spread(v: Value): Record {
    if v.Object? then v.fields else map[]
  }

  /** `{...existing, ...data}`: a field `data` has wins; every other field reads as in `existing`. */
  lemma MergeField(existing: Record, data: Value, f: string)
    ensures Field(existing + Spread(data), f) ==
              if data.Object? && f in data.fields then data.fields[f] else Field(existing, f)
  {
  }

  /** JavaScript truthiness. */
  predicate Falsy(v: Value) {
    v == Undefined || v == Null || v == Bool(false) || v == Num(0) || v == Str("")
  }

  /** Decimal notation of an integer, as `String(n)` writes it. */
  function Decimal(n: int): (r: string)
    ensures |r| > 0
    decreases if n < 0 then 1 - n else n
  {
    if n < 0 then "-" + Decimal(-n)
    else if n < 10 then [Digit(n)]
    else Decimal(n / 10) + [Digit(n % 10)]
  }

  function Digit(d: int): char
    requires 0 <= d < 10
  {
    "0123456789"[d]
  }

  /** Joins strings with commas, as `Array.prototype.join()` does. */
  function JoinCommas(parts: seq<string>): string {
    if |parts| == 0 then ""
    else if |parts| == 1 then parts[0]
    else parts[0] + "," + JoinCommas(parts[1..])
  }

  /** `String(v)`: the text a value becomes when concatenated to a string. */
  function Render(v: Value): string
    decreases v
  {
    match v
    case Undefined => "undefined"
    case Null => "null"
    case Bool(b) => if b then "true" else "false"
    case Num(n) => Decimal(n)
    case Str(s) => s
    case List(xs) =>
      JoinCommas(seq(|xs|, i requires 0 <= i < |xs| =>
        if xs[i].Undefined? || xs[i].Null? then "" else Render(xs[i])))
    case Object(_) => "[object Object]"
  }

  /** `(v || '')` concatenated to a string. */
  function OrEmpty(v: Value): (r: string)
    ensures Falsy(v) ==> r == ""
    ensures v.Str? ==> r == v.s
  {
    if Falsy(v) then "" else Render(v)
  }

  predicate StartsWith(s: string, prefix: string) {
    |prefix| <= |s| && s[..|prefix|] == prefix
  }

  /** The text before the first '/', or all of `s` when it has none. */
  function UpToSlash(s: string): (r: string)
    ensures r <= s && '/' !in r
    ensures |r| < |s| ==> s[|r|] == '/'
  {
    if s == [] || s[0] == '/' then [] else [s[0]] + UpToSlash(s[1..])
  }

  /**
   * `path.split('/')[1]` for a path known to start with `prefix`, where
   * `prefix` ends in its first '/'.
   */
  function SecondSegment(path: string, prefix: string): string
    requires StartsWith(path, prefix)
  {
    UpToSlash(path[|prefix|..])
  }

  lemma SecondSegmentOfJoin(prefix: string, id: string)
    requires '/' !in id
    ensures StartsWith(prefix + id, prefix)
    ensures SecondSegment(prefix + id, prefix) == id
  {
    assert (prefix + id)[..|prefix|] == prefix;
    assert (prefix + id)[|prefix|..] == id;
    UpToSlashWhole(id);
  }

  lemma {:induction false} UpToSlashWhole(s: string)
    requires '/' !in s
    ensures UpToSlash(s) == s
  {
    if s != [] {
      assert '/' !in s[1..];
      UpToSlashWhole(s[1..]);
    }
  }
}
