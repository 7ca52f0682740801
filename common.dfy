/** Failure-carrying wrappers used throughout the model. */
module Options {
  datatype Option<+T> = None | Some(value: T)

  datatype Result<+T, +E> = Ok(value: T) | Err(error: E)
}

/** Searching a sequence: the scans of the OCR chain and of the key table. */
module Seqs {
  /** Index of the first element satisfying `p`, or `|s|` when no element does. */
  function FirstWhere<T>(s: seq<T>, p: T -> bool): (k: nat)
    ensures k <= |s|
    ensures forall j :: 0 <= j < k ==> !p(s[j])
    ensures k < |s| ==> p(s[k])
  {
    if s == [] then 0
    else if p(s[0]) then 0
    else 1 + FirstWhere(s[1..], p)
  }

  /** The three properties of `FirstWhere` determine it. */
  lemma FirstWhereIs<T>(s: seq<T>, p: T -> bool, k: nat)
    requires k <= |s|
    requires forall j :: 0 <= j < k ==> !p(s[j])
    requires k < |s| ==> p(s[k])
    ensures FirstWhere(s, p) == k
  {
  }
}

/**
 * The Python values the pipeline handles: decoded JSON, with Python's
 * truthiness, `dict.get`, `in`, `str.startswith` and path joining.
 */
module PyValues {
  import opened Options

  type Bytes = seq<bv8>

  /** A value produced by Python's `json` module; `Null` also stands for `None`. */
  datatype Json =
    | Null
    | Bool(b: bool)
    | Num(n: int)
    | Str(s: string)
    | Arr(items: seq<Json>)
    | Obj(fields: map<string, Json>)

  /** `bool(v)` for a decoded JSON value: the six empty or zero values are falsy. */
  predicate Truthy(j: Json)
    ensures !Truthy(j) <==> j in {Null, Bool(false), Num(0), Str(""), Arr([]), Obj(map[])}
  {
    match j
    case Null => false
    case Bool(b) => b
    case Num(n) => n != 0
    case Str(s) => s != ""
    case Arr(xs) => xs != []
    case Obj(m) => m != map[]
  }

  /** `d.get(key)`: the value stored under `key`, or `None`. */
  function Get(m: map<string, Json>, key: string): (v: Json)
    ensures key !in m ==> v == Null
    ensures key in m ==> v == m[key]
  {
    if key in m then m[key] else Null
  }

  /** requests' `Response.ok`: false exactly for client (4xx) and server (5xx) errors, where `raise_for_status` raises. */
  predicate HttpOk(status: int) {
    !(400 <= status < 600)
  }

  /** `s.startswith(prefix)`: `s` carries `prefix`, character by character, at its start. */
  predicate StartsWith(s: string, prefix: string)
    ensures StartsWith(s, prefix) <==> |prefix| <= |s| && forall i :: 0 <= i < |prefix| ==> s[i] == prefix[i]
  {
    |prefix| <= |s| && s[..|prefix|] == prefix
  }

  /** `s.endswith(suffix)`. */
  predicate EndsWith(s: string, suffix: string) {
    |suffix| <= |s| && s[|s| - |suffix|..] == suffix
  }

  /**
   * `posixpath.join(a, b)`: an absolute `b` replaces `a`; otherwise a `/` is
   * put between them unless `a` is empty or already ends in one.
   */
  function JoinTwo(a: string, b: string): (p: string)
    ensures StartsWith(b, "/") ==> p == b
    ensures !StartsWith(b, "/") && (a == "" || EndsWith(a, "/")) ==> p == a + b
    ensures !StartsWith(b, "/") && a != "" && !EndsWith(a, "/") ==> p == a + "/" + b
  {
    if StartsWith(b, "/") then b
    else if a == "" || EndsWith(a, "/") then a + b
    else a + "/" + b
  }

  /** A path segment that `posixpath.join` neither restarts at nor glues without a separator. */
  predicate PlainSegment(s: string) {
    s != "" && !StartsWith(s, "/") && !EndsWith(s, "/")
  }

  /**
   * `os.path.join(dir, name, leaf)`: an absolute `leaf` is the whole result, a
   * relative one always ends it; a directory and a plain name are separated by one `/`; an
   * absolute `name` discards `dir`.
   */
  function Join(dir: string, name: string, leaf: string): (r: string)
    ensures StartsWith(leaf, "/") ==> r == leaf
    ensures !StartsWith(leaf, "/") ==> EndsWith(r, leaf)
    ensures dir != "" && !EndsWith(dir, "/") && PlainSegment(name) && !StartsWith(leaf, "/") ==>
              r == dir + "/" + name + "/" + leaf
    ensures StartsWith(name, "/") && !EndsWith(name, "/") && !StartsWith(leaf, "/") ==> r == name + "/" + leaf
  {
    JoinTwo(JoinTwo(dir, name), leaf)
  }

  /** Whether `key` occurs in `s` starting at index `i`. */
  predicate OccursAt(key: string, s: string, i: nat) {
    i + |key| <= |s| && s[i..i + |key|] == key
  }

  /** Whether `key` occurs in `s` as a contiguous substring. */
  predicate IsSubstring(key: string, s: string) {
    exists i: nat :: i <= |s| && OccursAt(key, s, i)
  }

  /**
   * `key in j` for a string `key`: a dict's keys, a list's items, a string's
   * substrings; `None` where `in` raises (numbers, booleans, `None`).
   */
  function In(key: string, j: Json): (r: Option<bool>)
    ensures r.None? <==> j.Null? || j.Bool? || j.Num?
    ensures j.Obj? ==> r == Some(key in j.fields)
    ensures j.Arr? ==> r == Some(Str(key) in j.items)
    ensures j.Str? ==> r == Some(IsSubstring(key, j.s))
  {
    match j
    case Obj(m) => Some(key in m)
    case Arr(xs) => Some(Str(key) in xs)
    case Str(s) => Some(IsSubstring(key, s))
    case _ => None
  }
}
