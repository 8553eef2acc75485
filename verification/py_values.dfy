/** Python's operations on the JSON values a tool call's arguments hold.
    The status and bookkeeping code around a call applies these without
    checking types, so a number, a boolean, null, a list or an object where
    a string is expected either passes through or raises:
    `args.get(k, d)`, `needle in v`, `v.split("/")[-1]`, `v[:n]`, `len(v)`,
    `v.count("\n")`, `set.add(v)`, `re.findall(p, v)` and `f"{v}"`.
    Exception texts are CPython 3.12's. */
module PyValues {
  import opened Wrappers
  import opened OrderedMaps
  import opened Text
  import opened Json

  /** A value, or the text of the exception that computing it raised. */
  type Py<T> = Result<T, string>

  /** The exception text of an outcome, if it raised. */
  function ErrorOf<T>(p: Py<T>): (r: Option<string>)
    ensures r.None? <==> p.Success?
    ensures p.Failure? ==> r == Some(p.error)
  {
    match p
    case Success(_) => None
    case Failure(e) => Some(e)
  }

  /** `type(v).__name__` for what `json.loads` builds. */
  function TypeName(v: Json): string {
    match v
    case JNull => "NoneType"
    case JBool(_) => "bool"
    case JInt(_) => "int"
    case JStr(_) => "str"
    case JArr(_) => "list"
    case JObj(_) => "dict"
  }

  /** None, a boolean or a number: no `len`, no indexing, no membership. */
  predicate IsScalar(v: Json) {
    v.JNull? || v.JBool? || v.JInt?
  }

  /** The AttributeError text for a missing method. */
  function NoAttribute(v: Json, name: string): string {
    "'" + TypeName(v) + "' object has no attribute '" + name + "'"
  }

  /** Python's truth value of a JSON value (object keys are distinct). */
  predicate IsTrue(v: Json) {
    match v
    case JNull => false
    case JBool(b) => b
    case JInt(i) => i != 0
    case JStr(s) => s != ""
    case JArr(items) => |items| > 0
    case JObj(fields) => |fields| > 0
  }

  /** `args.get(k, d)`: only a dict has `get`. */
  function ArgOr(args: Json, k: string, d: Json): (r: Py<Json>)
    ensures r.Success? <==> args.JObj?
    ensures r.Failure? ==> r.error == NoAttribute(args, "get")
    ensures args.JObj? && Field(args, k).Some? ==> r == Success(Field(args, k).value)
    ensures args.JObj? && Field(args, k).None? ==> r == Success(d)
  {
    if args.JObj? then Success(Field(args, k).GetOr(d)) else Failure(NoAttribute(args, "get"))
  }

  /** `args.get(k, "")`. */
  function Arg(args: Json, k: string): Py<Json> {
    ArgOr(args, k, JStr(""))
  }

  /** Argument `k` reads as text: the arguments are a dict and `k` is
      missing or holds a string. */
  predicate TextArg(args: Json, k: string) {
    args.JObj? && (Field(args, k).None? || Field(args, k).value.JStr?)
  }

  /** The text an argument reads as, "" when it is missing. */
  function ArgText(args: Json, k: string): string {
    StrField(args, k).GetOr("")
  }

  /** A text argument is read as its string. */
  lemma TextArgReads(args: Json, k: string)
    requires TextArg(args, k)
    ensures Arg(args, k) == Success(JStr(ArgText(args, k)))
  {
  }

  /** `needle in v`: substring, list element or dict key. */
  function In(needle: string, v: Json): (r: Py<bool>)
    ensures r.Failure? <==> IsScalar(v)
    ensures r.Failure? ==> r.error == "argument of type '" + TypeName(v) + "' is not iterable"
    ensures v.JStr? ==> r == Success(Contains(v.s, needle))
    ensures v.JArr? ==> r == Success(JStr(needle) in v.items)
    ensures v.JObj? ==> r == Success(HasKey(v.fields, needle))
  {
    match v
    case JStr(s) => Success(Contains(s, needle))
    case JArr(items) => Success(JStr(needle) in items)
    case JObj(fields) => Success(HasKey(fields, needle))
    case _ => Failure("argument of type '" + TypeName(v) + "' is not iterable")
  }

  /** `v.split("/")[-1] if "/" in v else v`. */
  function LastSegment(v: Json): (r: Py<Json>)
    ensures v.JStr? ==> r == Success(JStr(AfterLast(v.s, '/')))
    ensures IsScalar(v) ==> r == Failure("argument of type '" + TypeName(v) + "' is not iterable")
    ensures v.JArr? ==> r == if JStr("/") in v.items then Failure(NoAttribute(v, "split")) else Success(v)
    ensures v.JObj? ==> r == if HasKey(v.fields, "/") then Failure(NoAttribute(v, "split")) else Success(v)
  {
    if v.JStr? then Success(JStr(AfterLast(v.s, '/')))
    else
      var found :- In("/", v);
      if found then Failure(NoAttribute(v, "split")) else Success(v)
  }

  /** `v[:n]`: a dict looks the slice up as a key and raises KeyError,
      whose text is the slice. */
  function Prefix(v: Json, n: nat): (r: Py<Json>)
    ensures r.Failure? <==> IsScalar(v) || v.JObj?
    ensures IsScalar(v) ==> r == Failure("'" + TypeName(v) + "' object is not subscriptable")
    ensures v.JObj? ==> r == Failure("slice(None, " + IntToString(n) + ", None)")
    ensures v.JStr? ==> r == Success(JStr(Take(v.s, n)))
    ensures v.JArr? ==> r == Success(JArr(Take(v.items, n)))
  {
    match v
    case JStr(s) => Success(JStr(Take(s, n)))
    case JArr(items) => Success(JArr(Take(items, n)))
    case JObj(_) => Failure("slice(None, " + IntToString(n) + ", None)")
    case _ => Failure("'" + TypeName(v) + "' object is not subscriptable")
  }

  /** `args.get(k, "")[:n]`. */
  function ArgPrefix(args: Json, k: string, n: nat): (r: Py<Json>)
    ensures TextArg(args, k) ==> r == Success(JStr(Take(ArgText(args, k), n)))
    ensures !args.JObj? ==> r == Failure(NoAttribute(args, "get"))
    ensures args.JObj? && Field(args, k).Some? && IsScalar(Field(args, k).value) ==>
              r == Failure("'" + TypeName(Field(args, k).value) + "' object is not subscriptable")
  {
    var v :- Arg(args, k);
    Prefix(v, n)
  }

  /** `p.split("/")[-1] if "/" in p else p` for `p = args.get(k, "")`. */
  function ArgSegment(args: Json, k: string): (r: Py<Json>)
    ensures TextArg(args, k) ==> r == Success(JStr(AfterLast(ArgText(args, k), '/')))
    ensures !args.JObj? ==> r == Failure(NoAttribute(args, "get"))
    ensures args.JObj? && Field(args, k).Some? && IsScalar(Field(args, k).value) ==>
              r == Failure("argument of type '" + TypeName(Field(args, k).value) + "' is not iterable")
  {
    var v :- Arg(args, k);
    LastSegment(v)
  }

  /** `len(v)`. */
  function Len(v: Json): (r: Py<nat>)
    ensures r.Failure? <==> IsScalar(v)
    ensures r.Failure? ==> r.error == "object of type '" + TypeName(v) + "' has no len()"
    ensures v.JStr? ==> r == Success(|v.s|)
    ensures v.JArr? ==> r == Success(|v.items|)
    ensures v.JObj? ==> r == Success(|v.fields|)
  {
    match v
    case JStr(s) => Success(|s|)
    case JArr(items) => Success(|items|)
    case JObj(fields) => Success(|fields|)
    case _ => Failure("object of type '" + TypeName(v) + "' has no len()")
  }

  /** `v.count("\n")`: newlines in a string, "\n" elements in a list. */
  function CountNewlines(v: Json): (r: Py<nat>)
    ensures r.Success? <==> v.JStr? || v.JArr?
    ensures r.Failure? ==> r.error == NoAttribute(v, "count")
    ensures v.JStr? ==> r == Success(Count(v.s, "\n"))
    ensures v.JArr? ==> r == Success(multiset(v.items)[JStr("\n")])
  {
    match v
    case JStr(s) => Success(Count(s, "\n"))
    case JArr(items) => Success(multiset(items)[JStr("\n")])
    case _ => Failure(NoAttribute(v, "count"))
  }

  /** What `set.add(v)` raises: lists and dicts are unhashable. */
  function HashError(v: Json): (r: Option<string>)
    ensures r.Some? <==> v.JArr? || v.JObj?
    ensures r.Some? ==> r.value == "unhashable type: '" + TypeName(v) + "'"
  {
    if v.JArr? || v.JObj? then Some("unhashable type: '" + TypeName(v) + "'") else None
  }

  /** The key a hashable value is stored under in a set: `False == 0` and
      `True == 1` in Python, so a boolean shares its number's key. */
  function HashKey(v: Json): (r: Json)
    ensures !v.JBool? ==> r == v
    ensures v.JBool? ==> r == JInt(if v.b then 1 else 0)
  {
    if v.JBool? then JInt(if v.b then 1 else 0) else v
  }

  /** What `re.findall(pattern, v)` raises for a subject that is not a
      string. */
  function FindallError(v: Json): (r: Option<string>)
    ensures r.None? <==> v.JStr?
    ensures r.Some? ==> r.value == "expected string or bytes-like object, got '" + TypeName(v) + "'"
  {
    if v.JStr? then None else Some("expected string or bytes-like object, got '" + TypeName(v) + "'")
  }

  /** `f"{v}"`: a string as it is, None, booleans and integers as Python
      prints them, and a list or dict through `show` (Python's `repr` of
      it, which this model does not spell out). */
  function Str(v: Json, show: Json -> string): (r: string)
    ensures v.JStr? ==> r == v.s
    ensures v.JNull? ==> r == "None"
    ensures v.JBool? ==> r == (if v.b then "True" else "False")
    ensures v.JInt? ==> r == IntToString(v.i)
    ensures v.JArr? || v.JObj? ==> r == show(v)
  {
    match v
    case JStr(s) => s
    case JNull => "None"
    case JBool(b) => if b then "True" else "False"
    case JInt(i) => IntToString(i)
    case _ => show(v)
  }
}
