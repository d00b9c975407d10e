/**
 * JSON values as Python's `json.loads` hands them to the bot, and the few pieces of Python
 * semantics the message pipeline relies on: `dict.get`, the `in` operator, iteration over a
 * value, `str()` and `sep.join(...)`. Parsing and serialisation themselves are not modelled:
 * a parse is an input (`ParseResult`), and a serialised value is represented by the value.
 */
module Json {

  datatype Option<+T> = None | Some(value: T)

  /** The Python exceptions the modelled code raises or catches. */
  datatype PyError = TypeError | ValueError | AttributeError | KeyError | JsonDecodeError | OverflowError | RecursionError

  /** The result of a Python computation that may raise. */
  datatype Outcome<+T> = Ok(value: T) | Raised(error: PyError)

  /**
   * A JSON value. An object is a Python dict: its fields in insertion order.
   * A number is kept opaque, by the two renderings the core uses: `str(n)` and `format(n, '.2f')`;
   * the latter is None for an integer too large for a float, whose `.2f` raises OverflowError.
   */
  datatype Json =
    | JNull
    | JBool(b: bool)
    | JNumber(text: string, fixed2: Option<string>)
    | JString(s: string)
    | JArray(items: seq<Json>)
    | JObject(fields: seq<(string, Json)>)

  type Fields = seq<(string, Json)>

  /**
   * What `json.loads` did with a frame: a value, `JSONDecodeError`, or another exception
   * (ValueError for an integer literal with too many digits or undecodable bytes,
   * RecursionError for too deep a nesting).
   */
  datatype ParseResult = Parsed(value: Json) | DecodeError | Failed(error: LoadsError)

  /** An exception of `json.loads` other than `JSONDecodeError`, which `DecodeError` stands for. */
  type LoadsError = e: PyError | e != JsonDecodeError witness ValueError

  /** `d[k]` for a key, the first entry with that key (keys of a dict are unique). */
  function Lookup(fs: Fields, k: string): Option<Json>
  {
    if fs == [] then None
    else if fs[0].0 == k then Some(fs[0].1)
    else Lookup(fs[1..], k)
  }

  /** `k in d` for a dict. */
  predicate HasKey(fs: Fields, k: string)
  {
    Lookup(fs, k).Some?
  }

  /** `d.get(k, default)`. */
  function GetOr(fs: Fields, k: string, default: Json): (v: Json)
    ensures HasKey(fs, k) ==> Some(v) == Lookup(fs, k)
    ensures !HasKey(fs, k) ==> v == default
  {
    match Lookup(fs, k)
    case Some(v) => v
    case None => default
  }

  function Keys(fs: Fields): (ks: seq<string>)
    ensures |ks| == |fs|
    ensures forall i :: 0 <= i < |fs| ==> ks[i] == fs[i].0
  {
    seq(|fs|, i requires 0 <= i < |fs| => fs[i].0)
  }

  /**
   * Adding an entry at the end (what `d[k] = v` does for a new key) leaves every earlier
   * key's value alone and makes `k` map to `v`.
   */
  lemma {:induction false} LookupAppend(fs: Fields, k: string, v: Json, q: string)
    requires !HasKey(fs, k)
    ensures Lookup(fs + [(k, v)], q) == if q == k then Some(v) else Lookup(fs, q)
  {
    if fs == [] {
    } else {
      assert (fs + [(k, v)])[1..] == fs[1..] + [(k, v)];
      if fs[0].0 != q {
        LookupAppend(fs[1..], k, v, q);
      }
    }
  }

  /** Python's `t in s` on strings: `t` occurs in `s` as a contiguous substring. */
  predicate Contains(s: string, t: string)
    decreases |s|
  {
    t <= s || (|s| > 0 && Contains(s[1..], t))
  }

  /** Dicts and lists cannot be dict keys. */
  predicate Hashable(v: Json)
  {
    !v.JArray? && !v.JObject?
  }

  /**
   * `for x in v`: a list yields its items, a string its characters, a dict its keys;
   * anything else is not iterable.
   */
  function Iterate(v: Json): (r: Outcome<seq<Json>>)
    ensures r.Raised? <==> (v.JNull? || v.JBool? || v.JNumber?)
    ensures r.Raised? ==> r.error == TypeError
    ensures v.JString? && r.Ok? ==> |r.value| == |v.s|
    ensures v.JObject? && r.Ok? ==> |r.value| == |v.fields|
  {
    match v
    case JArray(xs) => Ok(xs)
    case JString(s) => Ok(seq(|s|, i requires 0 <= i < |s| => JString([s[i]])))
    case JObject(fs) => Ok(seq(|fs|, i requires 0 <= i < |fs| => JString(fs[i].0)))
    case _ => Raised(TypeError)
  }

  /** `sep.join(xs)`. */
  function Join(sep: string, xs: seq<string>): string
  {
    if xs == [] then ""
    else if |xs| == 1 then xs[0]
    else xs[0] + sep + Join(sep, xs[1..])
  }

  /** The strings of a sequence of JSON values, or None when one of them is not a string. */
  function Strings(xs: seq<Json>): (r: Option<seq<string>>)
    ensures r.Some? <==> forall i :: 0 <= i < |xs| ==> xs[i].JString?
    ensures r.Some? ==> |r.value| == |xs| && forall i :: 0 <= i < |xs| ==> r.value[i] == xs[i].s
  {
    if xs == [] then Some([])
    else if !xs[0].JString? then None
    else match Strings(xs[1..])
      case None => None
      case Some(rest) => Some([xs[0].s] + rest)
  }

  /** `sep.join(v)` for a JSON value: every item `v` iterates over must be a string. */
  function JoinValue(sep: string, v: Json): (r: Outcome<string>)
    ensures v.JArray? && (forall i :: 0 <= i < |v.items| ==> v.items[i].JString?) ==> r.Ok?
    ensures v.JArray? && (exists i :: 0 <= i < |v.items| && !v.items[i].JString?) ==> r == Raised(TypeError)
  {
    match Iterate(v)
    case Raised(e) => Raised(e)
    case Ok(xs) =>
      match Strings(xs)
      case None => Raised(TypeError)
      case Some(ss) => Ok(Join(sep, ss))
  }

  /** `str(v)` (also what an f-string placeholder without a format spec renders). */
  function PyStr(v: Json): string
  {
    if v.JString? then v.s else PyRepr(v)
  }

  /**
   * `repr(v)`, written out for JSON values. Python's choice of quote character and its
   * escaping of special characters inside a string's repr are not modelled.
   */
  function PyRepr(v: Json): string
    decreases v
  {
    match v
    case JNull => "None"
    case JBool(b) => if b then "True" else "False"
    case JNumber(text, _) => text
    case JString(s) => "'" + s + "'"
    case JArray(xs) =>
      "[" + Join(", ", seq(|xs|, i requires 0 <= i < |xs| => PyRepr(xs[i]))) + "]"
    case JObject(fs) =>
      "{" + Join(", ", seq(|fs|, i requires 0 <= i < |fs| => "'" + fs[i].0 + "': " + PyRepr(fs[i].1))) + "}"
  }

  /** ASCII lower-casing of one character (Python's `str.lower` restricted to ASCII). */
  function LowerChar(c: char): char
  {
    if 'A' <= c <= 'Z' then (c as int + 32) as char else c
  }

  /** `s.lower()`. */
  function Lower(s: string): (r: string)
    ensures |r| == |s|
    ensures forall i :: 0 <= i < |s| ==> r[i] == LowerChar(s[i])
  {
    if s == [] then [] else [LowerChar(s[0])] + Lower(s[1..])
  }

  /** `s.replace(target, replacement)` for single characters. */
  function Replace(s: string, target: char, replacement: char): (r: string)
    ensures |r| == |s|
    ensures forall i :: 0 <= i < |s| ==> r[i] == if s[i] == target then replacement else s[i]
  {
    if s == [] then [] else [if s[0] == target then replacement else s[0]] + Replace(s[1..], target, replacement)
  }
}
