/**
 * The part of zod the forms use: an object schema is a list of field rules, each a
 * check on the present value plus what happens when the value is undefined. A form's
 * values (react-hook-form's values object) are a map from field name to value, where a
 * missing key is `undefined`. Email syntax is zod's own check and is left abstract:
 * every validator takes it as the predicate `isEmail`.
 */
module Schema {
  import opened Wrappers
  import opened Calendar

  /** A form value: a string from an input or select, or a Date from a calendar. */
  datatype Value = Text(text: string) | Date(day: Day)

  /** The values object of a form; a missing key is `undefined`. */
  type Values = map<string, Value>

  /** The check zod applies to a value that is present. */
  datatype Check =
    | AnyString                     // z.string()
    | MinLength(n: nat)             // z.string().min(n)
    | EmailString                   // z.string().email()
    | AnyDate                       // z.date()
    | OneOf(options: seq<string>)   // z.enum([...])

  /** What the field does with `undefined`: reject it, accept it (`.optional()`), or substitute (`.default(v)`). */
  datatype Presence = Required | Optional | Default(value: Value)

  datatype FieldRule = FieldRule(key: string, check: Check, presence: Presence)

  /** `z.object({...})`, its keys in declaration order. */
  type ObjectSchema = seq<FieldRule>

  predicate Accepts(c: Check, v: Value, isEmail: string -> bool) {
    match c
    case AnyString => v.Text?
    case MinLength(n) => v.Text? && |v.text| >= n
    case EmailString => v.Text? && isEmail(v.text)
    case AnyDate => v.Date?
    case OneOf(options) => v.Text? && v.text in options
  }

  predicate RuleHolds(r: FieldRule, values: Values, isEmail: string -> bool) {
    if r.key in values then Accepts(r.check, values[r.key], isEmail)
    else match r.presence
      case Required => false
      case Optional => true
      case Default(v) => Accepts(r.check, v, isEmail)
  }

  /** `schema.safeParse(values).success`: every field rule holds. */
  predicate Valid(schema: ObjectSchema, values: Values, isEmail: string -> bool) {
    forall r :: r in schema ==> RuleHolds(r, values, isEmail)
  }

  /** The keys of the failing fields, in schema order (zod's issues, one per field). */
  function Errors(schema: ObjectSchema, values: Values, isEmail: string -> bool): (errs: seq<string>)
    ensures |errs| <= |schema|
    ensures forall k :: k in errs <==> exists r :: r in schema && r.key == k && !RuleHolds(r, values, isEmail)
    ensures errs == [] <==> Valid(schema, values, isEmail)
  {
    if schema == [] then []
    else
      (if RuleHolds(schema[0], values, isEmail) then [] else [schema[0].key])
      + Errors(schema[1..], values, isEmail)
  }

  /** A schema holds iff each of its rules, taken by position, holds. */
  lemma AllRules(schema: ObjectSchema, values: Values, isEmail: string -> bool)
    ensures Valid(schema, values, isEmail) <==>
      forall i :: 0 <= i < |schema| ==> RuleHolds(schema[i], values, isEmail)
  {
    assert forall i :: 0 <= i < |schema| ==> schema[i] in schema;
  }

  /** A schema of four rules holds iff each of the four holds. */
  lemma ValidFour(a: FieldRule, b: FieldRule, c: FieldRule, d: FieldRule, values: Values, isEmail: string -> bool)
    ensures Valid([a, b, c, d], values, isEmail) <==>
      RuleHolds(a, values, isEmail) && RuleHolds(b, values, isEmail) && RuleHolds(c, values, isEmail) && RuleHolds(d, values, isEmail)
  {
    var s := [a, b, c, d];
    if Valid(s, values, isEmail) {
      assert s[0] in s && s[1] in s && s[2] in s && s[3] in s;
    }
  }

  /** A schema of eight rules holds iff each of the eight holds. */
  lemma ValidEight(a: FieldRule, b: FieldRule, c: FieldRule, d: FieldRule,
                   e: FieldRule, f: FieldRule, g: FieldRule, h: FieldRule, values: Values, isEmail: string -> bool)
    ensures Valid([a, b, c, d, e, f, g, h], values, isEmail) <==>
      && RuleHolds(a, values, isEmail) && RuleHolds(b, values, isEmail) && RuleHolds(c, values, isEmail)
      && RuleHolds(d, values, isEmail) && RuleHolds(e, values, isEmail) && RuleHolds(f, values, isEmail)
      && RuleHolds(g, values, isEmail) && RuleHolds(h, values, isEmail)
  {
    var s := [a, b, c, d, e, f, g, h];
    if Valid(s, values, isEmail) {
      assert s[0] in s && s[1] in s && s[2] in s && s[3] in s;
      assert s[4] in s && s[5] in s && s[6] in s && s[7] in s;
    }
  }

  /** A schema of ten rules holds iff each of the ten holds. */
  lemma ValidTen(a: FieldRule, b: FieldRule, c: FieldRule, d: FieldRule, e: FieldRule,
                 f: FieldRule, g: FieldRule, h: FieldRule, i: FieldRule, j: FieldRule, values: Values, isEmail: string -> bool)
    ensures Valid([a, b, c, d, e, f, g, h, i, j], values, isEmail) <==>
      && RuleHolds(a, values, isEmail) && RuleHolds(b, values, isEmail) && RuleHolds(c, values, isEmail)
      && RuleHolds(d, values, isEmail) && RuleHolds(e, values, isEmail) && RuleHolds(f, values, isEmail)
      && RuleHolds(g, values, isEmail) && RuleHolds(h, values, isEmail) && RuleHolds(i, values, isEmail)
      && RuleHolds(j, values, isEmail)
  {
    var s := [a, b, c, d, e, f, g, h, i, j];
    if Valid(s, values, isEmail) {
      assert s[0] in s && s[1] in s && s[2] in s && s[3] in s && s[4] in s;
      assert s[5] in s && s[6] in s && s[7] in s && s[8] in s && s[9] in s;
    }
  }

  /** A schema split in two holds iff both parts hold. */
  lemma ValidAppend(a: ObjectSchema, b: ObjectSchema, values: Values, isEmail: string -> bool)
    ensures Valid(a + b, values, isEmail) <==> Valid(a, values, isEmail) && Valid(b, values, isEmail)
  {
    assert forall r :: r in a + b <==> r in a || r in b;
  }

  /** Every rule is an optional plain string (`z.string().optional()`). */
  predicate OptionalStrings(schema: ObjectSchema) {
    forall r :: r in schema ==> r.check == AnyString && r.presence == Optional
  }

  /** A schema of optional strings holds iff each of its keys is absent or holds a string. */
  lemma OptionalStringsValid(schema: ObjectSchema, values: Values, isEmail: string -> bool)
    requires OptionalStrings(schema)
    ensures Valid(schema, values, isEmail) <==> forall r :: r in schema ==> NoneOrText(values, r.key)
  {
  }

  /** No two rules of the schema name the same key (as in a `z.object` literal). */
  predicate UniqueKeys(schema: ObjectSchema) {
    forall i, j :: 0 <= i < j < |schema| ==> schema[i].key != schema[j].key
  }

  /** The parsed output: the values, with every defaulted field that was undefined filled in. */
  function WithDefaults(schema: ObjectSchema, values: Values): (out: Values)
    ensures forall k :: k in out <==> k in values || exists r :: r in schema && r.key == k && r.presence.Default?
    ensures forall k :: k in values ==> out[k] == values[k]
    ensures UniqueKeys(schema) ==>
      forall r :: r in schema && r.key !in values && r.presence.Default? ==> out[r.key] == r.presence.value
  {
    if schema == [] then values
    else
      var rest := WithDefaults(schema[1..], values);
      if schema[0].key !in values && schema[0].presence.Default? then rest[schema[0].key := schema[0].presence.value]
      else rest
  }

  /** `schema.safeParse(values)`: the output on success, the failing keys otherwise. */
  function Parse(schema: ObjectSchema, values: Values, isEmail: string -> bool): (r: Result<Values, seq<string>>)
    ensures r.Ok? <==> Valid(schema, values, isEmail)
    ensures r.Err? ==> r.error != [] && r.error == Errors(schema, values, isEmail)
  {
    var errs := Errors(schema, values, isEmail);
    if errs == [] then Ok(WithDefaults(schema, values)) else Err(errs)
  }

  // Readings of the rules, one per kind of field, used to state what each schema means.

  /** A string of at least n characters is present under key. */
  predicate HasText(values: Values, key: string, n: nat) {
    key in values && values[key].Text? && |values[key].text| >= n
  }

  /** A string satisfying the email predicate is present under key. */
  predicate HasEmail(values: Values, key: string, isEmail: string -> bool) {
    key in values && values[key].Text? && isEmail(values[key].text)
  }

  /** A Date is present under key. */
  predicate HasDate(values: Values, key: string) {
    key in values && values[key].Date?
  }

  /** One of the options is present under key. */
  predicate HasOption(values: Values, key: string, options: seq<string>) {
    key in values && values[key].Text? && values[key].text in options
  }

  /** Under key there is nothing, or a string. */
  predicate NoneOrText(values: Values, key: string) {
    key in values ==> values[key].Text?
  }
}
