/**
 * The part of the Joi validation library the models use: an object schema is a
 * sequence of (key, rule) pairs, every key is `.required()`, and keys the schema
 * does not name are refused (Joi's default for object schemas).  `Validate`
 * reports the first violation in schema order, as `error.details[0]` does.
 */
module Joi {
  import opened Wrappers
  import opened Json

  /** `Joi.string().min(min).max(max)` (optionally `.email()`), `Joi.number().min(min).max(max)`, `Joi.objectId()`. */
  datatype Rule =
    | Str(min: nat, max: nat, email: bool)
    | Num(low: int, high: int)
    | ObjectId

  /** What `error.details[0]` reports. */
  datatype Violation =
    | Required(key: string)
    | WrongType(key: string)
    | TooShort(key: string)
    | TooLong(key: string)
    | NotEmail(key: string)
    | BelowMin(key: string)
    | AboveMax(key: string)
    | NotObjectId(key: string)
    | NotAllowed(keys: set<string>)

  type Schema = seq<(string, Rule)>

  predicate IsHexDigit(c: char)
  {
    ('0' <= c <= '9') || ('a' <= c <= 'f') || ('A' <= c <= 'F')
  }

  /** `Joi.objectId()` (joi-objectid): a string of exactly 24 hexadecimal digits. */
  predicate IsObjectId(s: string)
  {
    |s| == 24 && forall i :: 0 <= i < |s| ==> IsHexDigit(s[i])
  }

  /** Stand-in for Joi's `.email()` check: no whitespace, and an `@` with text on both sides. */
  predicate IsEmail(s: string)
  {
    NoWhitespace(s) && exists i :: 0 < i < |s| - 1 && s[i] == '@'
  }

  /** What a value must be to pass `rule`, independently of the order Joi checks it in. */
  predicate Satisfies(v: Json, rule: Rule)
  {
    match rule
    case Str(lo, hi, email) => v.JString? && lo <= Utf16Length(v.s) <= hi && (email ==> IsEmail(v.s))
    case Num(lo, hi) => v.JNumber? && lo <= v.n <= hi
    case ObjectId => v.JString? && IsObjectId(v.s)
  }

  /** Joi's check of one present value: the type first, then each rule in the order written. */
  function Check(key: string, v: Json, rule: Rule): (r: Option<Violation>)
    ensures r.None? <==> Satisfies(v, rule)
    ensures r.Some? ==> !r.value.NotAllowed? && r.value.key == key
  {
    match rule
    case Str(lo, hi, email) =>
      if !v.JString? then Some(WrongType(key))
      else if Utf16Length(v.s) < lo then Some(TooShort(key))
      else if Utf16Length(v.s) > hi then Some(TooLong(key))
      else if email && !IsEmail(v.s) then Some(NotEmail(key))
      else None
    case Num(lo, hi) =>
      if !v.JNumber? then Some(WrongType(key))
      else if v.n < lo then Some(BelowMin(key))
      else if v.n > hi then Some(AboveMax(key))
      else None
    case ObjectId =>
      if !v.JString? then Some(WrongType(key))
      else if !IsObjectId(v.s) then Some(NotObjectId(key))
      else None
  }

  function Keys(schema: Schema): set<string>
  {
    set i | 0 <= i < |schema| :: schema[i].0
  }

  /** The first schema key that is missing or whose value fails its rule. */
  function FieldsViolation(body: Object, schema: Schema): Option<Violation>
  {
    if |schema| == 0 then None
    else
      var (key, rule) := schema[0];
      if key !in body then Some(Required(key))
      else match Check(key, body[key], rule)
        case Some(v) => Some(v)
        case None => FieldsViolation(body, schema[1..])
  }

  /** `Joi.validate(body, schema).error`, as an optional violation. */
  function Validate(body: Object, schema: Schema): Option<Violation>
  {
    match FieldsViolation(body, schema)
    case Some(v) => Some(v)
    case None =>
      var unknown := body.Keys - Keys(schema);
      if unknown == {} then None else Some(NotAllowed(unknown))
  }

  /** Every key of the schema is present in `body` with a value satisfying its rule. */
  predicate FieldsConform(body: Object, schema: Schema)
  {
    forall i :: 0 <= i < |schema| ==> schema[i].0 in body && Satisfies(body[schema[i].0], schema[i].1)
  }

  /** The reference meaning of a schema: all its fields conform and nothing else is present. */
  predicate Conforms(body: Object, schema: Schema)
  {
    FieldsConform(body, schema) && body.Keys <= Keys(schema)
  }

  lemma {:induction false} FieldsViolationNone(body: Object, schema: Schema)
    ensures FieldsViolation(body, schema).None? <==> FieldsConform(body, schema)
  {
    if |schema| > 0 {
      FieldsViolationNone(body, schema[1..]);
      if FieldsConform(body, schema) {
        assert FieldsConform(body, schema[1..]) by {
          forall i | 0 <= i < |schema[1..]|
            ensures schema[1..][i].0 in body && Satisfies(body[schema[1..][i].0], schema[1..][i].1)
          {
            assert schema[1..][i] == schema[i + 1];
          }
        }
      }
      if FieldsViolation(body, schema).None? {
        forall i | 0 <= i < |schema|
          ensures schema[i].0 in body && Satisfies(body[schema[i].0], schema[i].1)
        {
          if i > 0 {
            assert schema[i] == schema[1..][i - 1];
          }
        }
      }
    }
  }

  /** Validation succeeds exactly on the bodies that conform to the schema. */
  lemma ValidateAccepts(body: Object, schema: Schema)
    ensures Validate(body, schema).None? <==> Conforms(body, schema)
  {
    FieldsViolationNone(body, schema);
    if body.Keys - Keys(schema) == {} {
      forall k | k in body.Keys ensures k in Keys(schema) {
        assert k !in body.Keys - Keys(schema);
      }
    }
  }
}
