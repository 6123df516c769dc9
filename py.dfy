/** The Python values and builtins the message pipeline relies on.

    A decoded JSON document (what `json.loads` returns and `json.dumps` takes)
    is a `Json` value.  The operators the pipeline applies to such values
    (`k in x`, `x[k]`, `x.get(k, d)`) are modelled together with the
    exceptions Python raises when they are applied to the wrong kind of value,
    because any such exception escapes to the batch-level handler.
    The serialiser, the parser and `str()` are abstract: they are fields of
    `Builtins`. */
module Py {

  datatype Option<+T> = None | Some(value: T) {
    /** The value, or `default` when there is none. */
    function GetOr(default: T): T {
      match this
      case Some(v) => v
      case None => default
    }
  }

  /** A JSON-representable Python value.  Numbers are integers only. */
  datatype Json =
    | Null
    | Bool(b: bool)
    | Num(n: int)
    | Str(s: string)
    | Arr(items: seq<Json>)
    | Obj(fields: map<string, Json>)

  /** The exceptions that operations on JSON values can raise. */
  datatype Error =
    | KeyError(key: string)   // a dict subscripted with a missing key
    | TypeError               // an operator applied to a value that does not support it
    | DecodeError             // `json.loads` given text that is not JSON

  /** The outcome of a Python expression: a value, or an exception raised. */
  datatype Result<+T> = Ok(value: T) | Raise(error: Error)

  /** The library functions that are left abstract. */
  datatype Builtins = Builtins(
    dumps: Json -> string,          // json.dumps
    loads: string -> Option<Json>,  // json.loads; None when the text is not JSON
    str: Json -> string,            // str() of a value that is not a string
    describe: Error -> string)      // str() of an exception

  /** Python's `s` contains `k` as a substring (`k in s` on strings). */
  predicate Occurs(k: string, s: string)
    decreases |s|
  {
    |k| <= |s| && (s[..|k|] == k || Occurs(k, s[1..]))
  }

  /** `k` is found in `s` starting at position `i`. */
  predicate FoundAt(k: string, s: string, i: int) {
    0 <= i && i + |k| <= |s| && s[i..i + |k|] == k
  }

  /** `Occurs` is substring search: `k` occurs in `s` exactly when it is
      found at some position. */
  lemma {:induction false} OccursIffFound(k: string, s: string)
    ensures Occurs(k, s) <==> exists i :: FoundAt(k, s, i)
    decreases |s|
  {
    if |k| <= |s| {
      if 0 < |s| {
        OccursIffFound(k, s[1..]);
        forall i | FoundAt(k, s[1..], i)
          ensures FoundAt(k, s, i + 1)
        {
          assert s[1..][i..i + |k|] == s[i + 1..i + 1 + |k|];
        }
        forall i | FoundAt(k, s, i) && i > 0
          ensures FoundAt(k, s[1..], i - 1)
        {
          assert s[1..][i - 1..i - 1 + |k|] == s[i..i + |k|];
        }
      }
      if s[..|k|] == k {
        assert FoundAt(k, s, 0);
      }
    }
  }

  /** `key in j`: a key of a dict, an element of a list, a substring of a
      string; None, booleans and numbers are not iterable. */
  function In(key: string, j: Json): (r: Result<bool>)
    ensures j.Obj? ==> r == Ok(key in j.fields)
    ensures j.Arr? ==> r == Ok(Str(key) in j.items)
    ensures j.Str? ==> r == Ok(Occurs(key, j.s))
    ensures r.Raise? <==> j.Null? || j.Bool? || j.Num?
  {
    match j
    case Obj(fields) => Ok(key in fields)
    case Arr(items) => Ok(Str(key) in items)
    case Str(s) => Ok(Occurs(key, s))
    case _ => Raise(TypeError)
  }

  /** `j[key]` with a string key: only a dict that holds the key gives a value. */
  function Subscript(j: Json, key: string): (r: Result<Json>)
    ensures r.Ok? <==> j.Obj? && key in j.fields
    ensures r.Ok? ==> r.value == j.fields[key]
    ensures j.Obj? && key !in j.fields ==> r == Raise(KeyError(key))
    ensures !j.Obj? ==> r == Raise(TypeError)
  {
    match j
    case Obj(fields) => if key in fields then Ok(fields[key]) else Raise(KeyError(key))
    case _ => Raise(TypeError)
  }

  /** `j[k0][k1]...`, raising at the first subscript that fails. */
  function Path(j: Json, keys: seq<string>): (r: Result<Json>)
    ensures keys == [] ==> r == Ok(j)
    ensures |keys| == 1 ==> r == Subscript(j, keys[0])
    decreases |keys|
  {
    if keys == [] then Ok(j)
    else match Subscript(j, keys[0])
      case Raise(e) => Raise(e)
      case Ok(v) => Path(v, keys[1..])
  }

  /** Subscripting along `a + b` is subscripting along `a`, then along `b`
      from where `a` led; an exception along `a` ends the chain. */
  lemma {:induction false} PathAppend(j: Json, a: seq<string>, b: seq<string>)
    ensures Path(j, a + b) == (match Path(j, a) case Raise(e) => Raise(e) case Ok(v) => Path(v, b))
    decreases |a|
  {
    if a == [] {
      assert a + b == b;
    } else {
      assert (a + b)[0] == a[0];
      assert (a + b)[1..] == a[1..] + b;
      match Subscript(j, a[0])
      case Raise(_) =>
      case Ok(v) => PathAppend(v, a[1..], b);
    }
  }

  /** `d.get(key, default)` on a dict. */
  function DictGet(fields: map<string, Json>, key: string, default: Json): (v: Json)
    ensures key in fields ==> v == fields[key]
    ensures key !in fields ==> v == default
  {
    if key in fields then fields[key] else default
  }

  /** `f"{j}"`: a string is inserted as it is, anything else through `str()`. */
  function Format(py: Builtins, j: Json): (s: string)
    ensures j.Str? ==> s == j.s
  {
    match j
    case Str(s) => s
    case _ => py.str(j)
  }

  /** `json.loads(text)`: only a string can be parsed. */
  function Loads(py: Builtins, text: Json): (r: Result<Json>)
    ensures r.Ok? <==> text.Str? && py.loads(text.s).Some?
    ensures r.Ok? ==> r.value == py.loads(text.s).value
    ensures text.Str? && py.loads(text.s).None? ==> r == Raise(DecodeError)
    ensures !text.Str? ==> r == Raise(TypeError)
  {
    match text
    case Str(s) => (match py.loads(s) case Some(v) => Ok(v) case None => Raise(DecodeError))
    case _ => Raise(TypeError)
  }
}
