/** Python values and the few Python operations the plugin modules apply to them:
    truthiness, `x in c`, `d[k]`, `d.get(k)`, `s.lower()`, `'%s' % v` and `sep.join(xs)`.
    Every reply of the platform and every module parameter is such a value. */
module Py {

  /** A value as the cs client decodes it from the platform's JSON reply, or as
      AnsibleModule hands over a parameter. Dictionary keys are strings, as in JSON. */
  datatype Value =
    | Null
    | Bool(b: bool)
    | Int(i: int)
    | Str(s: string)
    | List(items: seq<Value>)
    | Dict(entries: map<string, Value>)

  /** How a run ends when it does not end normally. */
  datatype Error =
    | Failed(msg: string)        // AnsibleModule.fail_json(msg=...)
    | Raised(exception: string)  // an uncaught Python exception
    | Stalled                    // no final job status among the replies modelled

  datatype Option<+T> = None | Some(value: T)

  datatype Result<+T> = Ok(value: T) | Err(error: Error) {
    predicate IsFailure() { Err? }
    function PropagateFailure<U>(): Result<U> requires Err? { Err(error) }
    function Extract(): T requires Ok? { value }
  }

  const KeyError := Raised("KeyError")
  const TypeError := Raised("TypeError")
  const AttributeError := Raised("AttributeError")
  const NameError := Raised("NameError")

  /** `if v:` */
  predicate Truthy(v: Value) {
    match v
    case Null => false
    case Bool(b) => b
    case Int(i) => i != 0
    case Str(s) => s != ""
    case List(xs) => xs != []
    case Dict(m) => m != map[]
  }

  /** `d.get(k)`: None for a missing key. */
  function Get(d: map<string, Value>, k: string): Value {
    if k in d then d[k] else Null
  }

  /** `k` occurs in `s` as a contiguous piece. */
  predicate IsSubstring(k: string, s: string)
    decreases |s|
  {
    (|k| <= |s| && s[..|k|] == k) || (s != "" && IsSubstring(k, s[1..]))
  }

  /** `x in c`: a key of a dict, an element of a list, a piece of a string. */
  function In(x: Value, c: Value): Result<bool> {
    match c
    case Dict(m) => if x.List? || x.Dict? then Err(TypeError) else Ok(x.Str? && x.s in m)
    case List(xs) => Ok(x in xs)
    case Str(s) => if x.Str? then Ok(IsSubstring(x.s, s)) else Err(TypeError)
    case _ => Err(TypeError)
  }

  /** `'k' in c` for a literal string key. */
  function Has(c: Value, k: string): Result<bool> {
    In(Str(k), c)
  }

  /** `v[k]` with a string key. */
  function Index(v: Value, k: string): Result<Value> {
    match v
    case Dict(m) => if k in m then Ok(m[k]) else Err(KeyError)
    case _ => Err(TypeError)
  }

  function LowerChar(c: char): char {
    if 'A' <= c <= 'Z' then (c as int + 32) as char else c
  }

  /** `s.lower()` on ASCII text. */
  function LowerText(s: string): string {
    seq(|s|, i requires 0 <= i < |s| => LowerChar(s[i]))
  }

  /** `v.lower()`: only strings have the method. */
  function Lower(v: Value): Result<string> {
    if v.Str? then Ok(LowerText(v.s)) else Err(AttributeError)
  }

  function Decimal(n: nat): string
    decreases n
  {
    if n < 10 then ["0123456789"[n]] else Decimal(n / 10) + ["0123456789"[n % 10]]
  }

  /** `'%s' % v` for the kinds of value that appear in messages. */
  function Show(v: Value): string {
    match v
    case Null => "None"
    case Bool(b) => if b then "True" else "False"
    case Int(i) => if i < 0 then "-" + Decimal(-i) else Decimal(i)
    case Str(s) => s
    case List(_) => "[...]"
    case Dict(_) => "{...}"
  }

  /** `sep.join(xs)` on strings. */
  function JoinText(sep: char, xs: seq<string>): string {
    if |xs| == 0 then ""
    else if |xs| == 1 then xs[0]
    else xs[0] + [sep] + JoinText(sep, xs[1..])
  }

  /** `sep.join(v)`: every element of the list must be a string. */
  function Join(sep: char, v: Value): Result<string> {
    if v.List? && forall x <- v.items :: x.Str? then
      Ok(JoinText(sep, seq(|v.items|, i requires 0 <= i < |v.items| => v.items[i].s)))
    else Err(TypeError)
  }

  /** `s.split(sep)`, the inverse of JoinText. */
  function Split(sep: char, s: string): (parts: seq<string>)
    ensures |parts| >= 1
    decreases |s|
  {
    if s == [] then [""]
    else if s[0] == sep then [""] + Split(sep, s[1..])
    else
      var rest := Split(sep, s[1..]);
      [[s[0]] + rest[0]] + rest[1..]
  }

  /** A piece without a separator splits into itself, and one followed by a separator
      is split off in front of whatever follows. */
  lemma {:induction false} SplitPiece(sep: char, a: string, b: string)
    requires sep !in a
    ensures Split(sep, a) == [a]
    ensures Split(sep, a + [sep] + b) == [a] + Split(sep, b)
  {
    if a == [] {
      assert a + [sep] + b == [sep] + b;
      assert ([sep] + b)[1..] == b;
    } else {
      SplitPiece(sep, a[1..], b);
      assert (a + [sep] + b)[1..] == a[1..] + [sep] + b;
      assert [a[0]] + a[1..] == a;
    }
  }

  /** Joining strings that do not contain the separator loses nothing: splitting the
      joined text gives the strings back. */
  lemma {:induction false} SplitJoin(sep: char, xs: seq<string>)
    requires |xs| >= 1
    requires forall x <- xs :: sep !in x
    ensures Split(sep, JoinText(sep, xs)) == xs
  {
    if |xs| == 1 {
      SplitPiece(sep, xs[0], "");
    } else {
      SplitJoin(sep, xs[1..]);
      SplitPiece(sep, xs[0], JoinText(sep, xs[1..]));
      assert [xs[0]] + xs[1..] == xs;
    }
  }
}
