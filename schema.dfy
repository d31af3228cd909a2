/** The validation machinery the record types share, in the way the pydantic models use it:
    a record is built from a decoded JSON object (its keyword arguments), every declared field
    is read and checked in declaration order, all failing fields are reported together, and
    undeclared keys are either ignored or forbidden depending on the model's `extra` mode. */
module Schema {
  import opened Wrappers
  import Text

  /** A decoded JSON value. Objects keep their members in order, as `json.dumps` writes them. */
  datatype Json =
    | JNull
    | JBool(b: bool)
    | JInt(i: int)
    | JNum(r: real)
    | JStr(s: string)
    | JArr(items: seq<Json>)
    | JObj(members: seq<(string, Json)>)

  /** The keyword arguments a record is validated from. */
  type Payload = map<string, Json>

  /** A fixed-width shape such as `^\d{2}:\d{2}:\d{2}$`: one atom per character. */
  datatype Atom = Digit | Exactly(c: char)

  type Shape = seq<Atom>

  predicate AtomMatches(a: Atom, c: char) {
    match a
    case Digit => Text.IsAsciiDigit(c)
    case Exactly(x) => c == x
  }

  /** `s` matches the anchored pattern whose atoms are `shape`. */
  predicate FullMatch(shape: Shape, s: string) {
    |s| == |shape| && forall i :: 0 <= i < |s| ==> AtomMatches(shape[i], s[i])
  }

  /** The pydantic error type of one failed field. */
  datatype ErrorKind =
    | Missing
    | StringType
    | IntType
    | IntOrStrType                 // neither member of an `int | str` union matched
    | StringTooShort(minLength: nat)
    | StringTooLong(maxLength: nat)
    | GreaterThanEqual(ge: int)
    | GreaterThan(gt: int)
    | PatternMismatch(pattern: string)
    | LiteralError(expected: seq<string>)
    | ValueError(message: string)

  datatype FieldError = FieldError(field: string, kind: ErrorKind)

  /** `extra="ignore"` (pydantic's default: undeclared keys are dropped) or `extra="forbid"`. */
  datatype ExtraMode = Ignore | Forbid

  /** All failing declared fields, in declaration order, and the forbidden undeclared keys. */
  datatype ValidationError = ValidationError(fieldErrors: seq<FieldError>, extras: set<string>)

  /** A required `str` field. */
  function Str(p: Payload, key: string): (r: Result<string, FieldError>)
    ensures r.Ok? <==> key in p && p[key].JStr?
    ensures r.Ok? ==> r.value == p[key].s
    ensures r.Err? ==> r.error.field == key
    ensures key !in p ==> r == Err(FieldError(key, Missing))
  {
    if key !in p then Err(FieldError(key, Missing))
    else if p[key].JStr? then Ok(p[key].s)
    else Err(FieldError(key, StringType))
  }

  /** A `str` field with a default used when the key is absent. */
  function StrOr(p: Payload, key: string, default: string): (r: Result<string, FieldError>)
    ensures r.Ok? <==> key !in p || p[key].JStr?
    ensures r.Ok? ==> r.value == if key in p then p[key].s else default
    ensures r.Err? ==> r.error == FieldError(key, StringType)
  {
    if key !in p then Ok(default) else Str(p, key)
  }

  /** A required `int` field. Only JSON integers are accepted. */
  function Int(p: Payload, key: string): (r: Result<int, FieldError>)
    ensures r.Ok? <==> key in p && p[key].JInt?
    ensures r.Ok? ==> r.value == p[key].i
    ensures r.Err? ==> r.error.field == key
    ensures key !in p ==> r == Err(FieldError(key, Missing))
  {
    if key !in p then Err(FieldError(key, Missing))
    else if p[key].JInt? then Ok(p[key].i)
    else Err(FieldError(key, IntType))
  }

  /** An `int` field with a default used when the key is absent. */
  function IntOr(p: Payload, key: string, default: int): (r: Result<int, FieldError>)
    ensures r.Ok? <==> key !in p || p[key].JInt?
    ensures r.Ok? ==> r.value == if key in p then p[key].i else default
    ensures r.Err? ==> r.error == FieldError(key, IntType)
  {
    if key !in p then Ok(default) else Int(p, key)
  }

  /** A `Literal[...]` field over strings, with an optional default. */
  function Choice(p: Payload, key: string, choices: seq<string>, default: Option<string>)
    : (r: Result<string, FieldError>)
    ensures r.Ok? <==> (key !in p && default.Some?) || (key in p && p[key].JStr? && p[key].s in choices)
    ensures r.Ok? ==> r.value == if key in p then p[key].s else default.value
    ensures r.Err? ==> r.error.field == key
  {
    if key !in p then
      if default.Some? then Ok(default.value) else Err(FieldError(key, Missing))
    else if p[key].JStr? && p[key].s in choices then Ok(p[key].s)
    else Err(FieldError(key, LiteralError(choices)))
  }

  /** A constraint checked after the type: an already failing field keeps its first error. */
  function Constrain<T>(r: Result<T, FieldError>, key: string, ok: T -> bool, kind: ErrorKind)
    : (c: Result<T, FieldError>)
    ensures c.Ok? <==> r.Ok? && ok(r.value)
    ensures c.Ok? ==> c.value == r.value
    ensures r.Err? ==> c == r
  {
    if r.Err? || ok(r.value) then r else Err(FieldError(key, kind))
  }

  /** The errors one field contributes. */
  function Errors<T>(r: Result<T, FieldError>): (e: seq<FieldError>)
    ensures e == [] <==> r.Ok?
    ensures r.Err? ==> e == [r.error]
  {
    if r.Ok? then [] else [r.error]
  }

  /** The undeclared keys a model refuses. */
  function Extras(p: Payload, declared: set<string>, mode: ExtraMode): (e: set<string>)
    ensures mode == Ignore ==> e == {}
    ensures mode == Forbid ==> forall k :: k in e <==> k in p && k !in declared
  {
    if mode == Ignore then {} else p.Keys - declared
  }
}
