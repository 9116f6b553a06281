/** The part of JSON Schema 2020-12 that the contract scripts read, and what it accepts. */
module SchemaLanguage {
  import opened Json

  /** Python's == on parsed JSON: booleans are the numbers 0 and 1, and 1 equals 1.0. */
  function Norm(j: Json): Json {
    match j
    case Bool(b) => Float(if b then 1.0 else 0.0)
    case Int(i) => Float(i as real)
    case Arr(es) => Arr(seq(|es|, i requires 0 <= i < |es| => Norm(es[i])))
    case Obj(m) => Obj(map k | k in m :: Norm(m[k]))
    case _ => j
  }

  predicate PyEq(a: Json, b: Json) { Norm(a) == Norm(b) }

  predicate Contains(values: seq<Json>, v: Json) {
    exists i :: 0 <= i < |values| && PyEq(values[i], v)
  }

  /** A value where a schema is expected: a mapping, or something the scripts do not look into. */
  datatype Node = Sub(schema: Schema) | Lit(value: Json)

  datatype Limits = Limits(
    minimum: Option<real>, minLength: Option<real>, minItems: Option<real>, minProperties: Option<real>,
    maximum: Option<real>, maxLength: Option<real>, maxItems: Option<real>, maxProperties: Option<real>)

  /** `closed` says that additionalProperties is false. */
  datatype Schema = Schema(
    ref: Option<string>, typ: Option<Json>, constant: Option<Json>, enumeration: Option<seq<Json>>,
    format: Option<Json>, pattern: Option<string>, limits: Limits, required: seq<string>,
    properties: map<string, Node>, defs: map<string, Node>, items: Option<Node>, closed: bool, uniqueItems: bool)

  /** Pattern search and date parsing, which the scripts take from the Python library. */
  datatype Oracles = Oracles(
    matches: (string, string) -> bool, isDateTime: string -> bool, isDate: string -> bool)

  // ---- references ----

  const DEFS_PREFIX := "#/$defs/"

  function DefName(ref: string): Option<string> {
    if |ref| >= |DEFS_PREFIX| && ref[..|DEFS_PREFIX|] == DEFS_PREFIX then Some(ref[|DEFS_PREFIX|..]) else None
  }

  /** resolve_ref, without the error messages. */
  function Resolve(root: Schema, ref: string): Option<Schema> {
    match DefName(ref)
    case None => None
    case Some(name) => if name in root.defs && root.defs[name].Sub? then Some(root.defs[name].schema) else None
  }

  /** Where a chain of references ends. On an endless chain validate_instance never returns. */
  datatype Destination = Target(schema: Schema) | Broken | Endless

  function Follow(root: Schema, s: Schema, seen: set<string>): Destination
    decreases root.defs.Keys - seen
  {
    if s.ref.None? then Target(s)
    else if Resolve(root, s.ref.value).None? then Broken
    else
      var name := DefName(s.ref.value).value;
      if name in seen then Endless else Follow(root, root.defs[name].schema, seen + {name})
  }

  // ---- acceptance: validate_instance adds no error ----

  predicate TypeOk(typ: Option<Json>, j: Json) {
    match typ
    case Some(Str(t)) =>
      if t == "object" then j.Obj?
      else if t == "array" then j.Arr?
      else if t == "string" then j.Str?
      else if t == "integer" then j.Int?
      else if t == "number" then j.Int? || j.Float?
      else if t == "boolean" then j.Bool?
      else true
    case _ => true
  }

  predicate AtLeast(n: real, limit: Option<real>) { limit.Some? ==> n >= limit.value }

  predicate AtMost(n: real, limit: Option<real>) { limit.Some? ==> n <= limit.value }

  predicate Distinct(es: seq<Json>) {
    forall i, j :: 0 <= i < j < |es| ==> es[i] != es[j]
  }

  predicate FormatOk(o: Oracles, format: Option<Json>, s: string) {
    && (format == Some(Str("date-time")) ==> o.isDateTime(s))
    && (format == Some(Str("date")) ==> o.isDate(s))
  }

  /** The checks that do not descend into the instance. */
  predicate LocallyOk(o: Oracles, j: Json, s: Schema) {
    && (s.constant.Some? ==> PyEq(j, s.constant.value))
    && (s.enumeration.Some? ==> Contains(s.enumeration.value, j))
    && TypeOk(s.typ, j)
    && match j
       case Obj(m) =>
         && (forall f :: f in s.required ==> f in m)
         && (s.closed ==> m.Keys <= s.properties.Keys)
         && AtLeast(|m| as real, s.limits.minProperties)
       case Arr(es) =>
         && AtLeast(|es| as real, s.limits.minItems) && AtMost(|es| as real, s.limits.maxItems)
         && (s.uniqueItems ==> Distinct(es))
       case Str(t) =>
         && AtLeast(|t| as real, s.limits.minLength) && AtMost(|t| as real, s.limits.maxLength)
         && (s.pattern.Some? ==> o.matches(s.pattern.value, t))
         && FormatOk(o, s.format, t)
       case Int(i) => AtLeast(i as real, s.limits.minimum) && AtMost(i as real, s.limits.maximum)
       case Float(r) => AtLeast(r, s.limits.minimum) && AtMost(r, s.limits.maximum)
       case _ => true
  }

  predicate Accepts(o: Oracles, root: Schema, j: Json, s: Schema)
    decreases j, 1
  {
    match Follow(root, s, {})
    case Target(t) => LocallyOk(o, j, t) && ChildrenOk(o, root, j, t)
    case _ => false
  }

  predicate ChildrenOk(o: Oracles, root: Schema, j: Json, s: Schema)
    decreases j, 0
  {
    match j
    case Obj(m) =>
      forall f :: f in m ==>
        (f in s.properties && s.properties[f].Sub? ==> Accepts(o, root, m[f], s.properties[f].schema))
    case Arr(es) =>
      s.items.Some? && s.items.value.Sub? ==>
        forall i :: 0 <= i < |es| ==> Accepts(o, root, es[i], s.items.value.schema)
    case _ => true
  }

  // ---- compatibility: _compare_schema adds no error ----

  predicate Kept(b: Option<Json>, c: Option<Json>) { b.Some? ==> PyEq(c.GetOr(Null), b.value) }

  predicate NotRaised(b: Option<real>, c: Option<real>) { b.Some? && c.Some? ==> c.value <= b.value }

  predicate NotLowered(b: Option<real>, c: Option<real>) { b.Some? && c.Some? ==> c.value >= b.value }

  predicate LimitsKept(b: Limits, c: Limits) {
    && NotRaised(b.minimum, c.minimum) && NotRaised(b.minLength, c.minLength)
    && NotRaised(b.minItems, c.minItems) && NotRaised(b.minProperties, c.minProperties)
    && NotLowered(b.maximum, c.maximum) && NotLowered(b.maxLength, c.maxLength)
    && NotLowered(b.maxItems, c.maxItems) && NotLowered(b.maxProperties, c.maxProperties)
  }

  predicate EnumKept(b: Option<seq<Json>>, c: Option<seq<Json>>) {
    b.Some? ==> c.Some? && forall i :: 0 <= i < |b.value| ==> Contains(c.value, b.value[i])
  }

  /** The keywords compared without descending. */
  predicate KeywordsKept(b: Schema, c: Schema) {
    && Kept(b.typ, c.typ) && (b.ref.Some? ==> c.ref == b.ref) && Kept(b.format, c.format) && Kept(b.constant, c.constant)
    && EnumKept(b.enumeration, c.enumeration)
    && LimitsKept(b.limits, c.limits)
    && (b.pattern.Some? ==> c.pattern == b.pattern)
    && (forall f :: f in b.required ==> f in c.required) && (forall f :: f in c.required ==> f in b.required)
    && (!b.closed ==> !c.closed)
  }

  predicate Compatible(b: Node, c: Node)
    decreases b
  {
    match (b, c)
    case (Lit(x), Lit(y)) => PyEq(x, y)
    case (Sub(x), Sub(y)) => CompatibleSchema(x, y)
    case _ => false
  }

  predicate CompatibleSchema(b: Schema, c: Schema)
    decreases b
  {
    && KeywordsKept(b, c)
    && (forall n :: n in b.properties ==> n in c.properties && Compatible(b.properties[n], c.properties[n]))
    && (forall n :: n in b.defs ==> n in c.defs && Compatible(b.defs[n], c.defs[n]))
    && (b.items.Some? && b.items.value.Sub? ==>
          c.items.Some? && c.items.value.Sub? && Compatible(b.items.value, c.items.value))
  }
}
