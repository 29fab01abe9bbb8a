/** JSON values as the connector sees them after `response.json()`, and the
    few Python operations the connector applies to them: subscripting a
    dict, the `in` operator and iteration, and the string tests behind
    `str.startswith` and `in` on strings. Each operation returns a
    `Result` whose error is the Python exception the operation would raise. */
module JsonValues {

  /** A decoded JSON document. Numbers are integers only. */
  datatype Json =
    | JNull
    | JBool(b: bool)
    | JNum(n: int)
    | JStr(s: string)
    | JArr(items: seq<Json>)
    | JObj(fields: map<string, Json>)

  /** The Python exceptions a lookup or a membership test can raise. */
  datatype Fault =
    | KeyError(key: string)   // a dict without the key
    | TypeError               // not subscriptable by a string, not iterable, or unhashable
    | AttributeError          // `.startswith` on something that is not a string

  datatype Result<+T> = Ok(value: T) | Err(error: Fault)

  datatype Option<+T> = None | Some(value: T)

  /** `s.startswith(prefix)` on Python strings. */
  predicate StartsWith(s: string, prefix: string)
  {
    |prefix| <= |s| && s[..|prefix|] == prefix
  }

  /** `p in s` on Python strings: a substring test (the empty string is in every string). */
  predicate IsSubstring(p: string, s: string)
  {
    exists i | 0 <= i <= |s| - |p| :: OccursAt(p, s, i)
  }

  /** `p` occurs in `s` starting at index `i`. */
  predicate OccursAt(p: string, s: string, i: int)
  {
    0 <= i <= |s| - |p| && s[i..i + |p|] == p
  }

  /** `j[key]` for a string key: only a dict can be subscripted by a string,
      and a dict without the key raises KeyError. */
  function Subscript(j: Json, key: string): (r: Result<Json>)
    ensures r.Ok? <==> j.JObj? && key in j.fields
    ensures r.Ok? ==> r.value == j.fields[key]
    ensures j.JObj? && key !in j.fields ==> r == Err(KeyError(key))
    ensures !j.JObj? ==> r == Err(TypeError)
  {
    match j
    case JObj(m) => if key in m then Ok(m[key]) else Err(KeyError(key))
    case _ => Err(TypeError)
  }

  /** `x in container`. A list tests equality with its items, a string tests
      for a substring (and refuses a non-string operand), a dict tests its keys
      (and refuses an unhashable operand); numbers, booleans and None are not
      containers. */
  function Contains(container: Json, x: Json): (r: Result<bool>)
    ensures container.JArr? ==> r == Ok(x in container.items)
    ensures container.JObj? && x.JStr? ==> r == Ok(x.s in container.fields)
    ensures container.JStr? && x.JStr? ==> r == Ok(IsSubstring(x.s, container.s))
    ensures r.Err? <==> (container.JNull? || container.JBool? || container.JNum?
                         || (container.JStr? && !x.JStr?)
                         || (container.JObj? && (x.JArr? || x.JObj?)))
    ensures r.Err? ==> r.error == TypeError
    ensures container.JObj? && !x.JStr? && r.Ok? ==> !r.value
  {
    match container
    case JArr(items) => Ok(x in items)
    case JStr(s) => if x.JStr? then Ok(IsSubstring(x.s, s)) else Err(TypeError)
    case JObj(m) =>
      (match x
       case JStr(k) => Ok(k in m)
       case JArr(_) => Err(TypeError)
       case JObj(_) => Err(TypeError)
       case _ => Ok(false))
    case _ => Err(TypeError)
  }

  /** The elements a `for` loop visits when it iterates over `j`, when each of
      them can then be subscripted by a string. A list yields its items. A
      non-empty dict or string yields strings, whose first subscript by a
      string raises TypeError, so iterating them fails the same way; an empty
      one yields nothing. Numbers, booleans and None are not iterable. */
  function Elements(j: Json): (r: Result<seq<Json>>)
    ensures j.JArr? ==> r == Ok(j.items)
    ensures r.Ok? ==> j.JArr? || r.value == []
    ensures r.Err? <==> j.JNull? || j.JBool? || j.JNum? || (j.JObj? && j.fields != map[]) || (j.JStr? && j.s != [])
    ensures r.Err? ==> r.error == TypeError
  {
    match j
    case JArr(items) => Ok(items)
    case JObj(m) => if m == map[] then Ok([]) else Err(TypeError)
    case JStr(s) => if s == [] then Ok([]) else Err(TypeError)
    case _ => Err(TypeError)
  }
}
