/** The two scripts as they run: a validator and a comparison that collect messages while they recurse. */
module SchemaScripts {
  import opened Json
  import opened SchemaLanguage

  datatype Step = Field(name: string) | Index(i: int) | Keyword(name: string)

  type Path = seq<Step>

  /** Where a check failed and which one; the wording of a message is not modelled. */
  datatype Message = Message(path: Path, check: string)

  // ---- reference chains ----

  /** No chain of references runs in a circle. On such documents validate_instance would recurse for ever. */
  ghost predicate ChainsEnd(root: Schema) {
    forall s: Schema :: !Follow(root, s, {}).Endless?
  }

  /** How many references are followed before the chain ends. */
  ghost function ChainLength(root: Schema, s: Schema, seen: set<string>): nat
    decreases root.defs.Keys - seen
  {
    if s.ref.None? || Resolve(root, s.ref.value).None? then 0
    else
      var name := DefName(s.ref.value).value;
      if name in seen then 0 else 1 + ChainLength(root, root.defs[name].schema, seen + {name})
  }

  /** A chain that ends does not depend on the names seen before. */
  lemma {:induction false} SeenIrrelevant(root: Schema, s: Schema, small: set<string>, big: set<string>)
    requires small <= big && !Follow(root, s, big).Endless?
    ensures Follow(root, s, small) == Follow(root, s, big)
    ensures ChainLength(root, s, small) == ChainLength(root, s, big)
    decreases root.defs.Keys - big
  {
    if s.ref.Some? && Resolve(root, s.ref.value).Some? {
      var name := DefName(s.ref.value).value;
      SeenIrrelevant(root, root.defs[name].schema, small + {name}, big + {name});
    }
  }

  lemma OneReferenceLess(root: Schema, s: Schema)
    requires ChainsEnd(root) && s.ref.Some? && Resolve(root, s.ref.value).Some?
    ensures var t := Resolve(root, s.ref.value).value;
      Follow(root, s, {}) == Follow(root, t, {}) && ChainLength(root, t, {}) < ChainLength(root, s, {})
  {
    var name := DefName(s.ref.value).value;
    var t := root.defs[name].schema;
    assert !Follow(root, s, {}).Endless?;
    assert {} + {name} == {name};
    SeenIrrelevant(root, t, {}, {name});
  }

  class ContractValidator {
    const root: Schema
    const oracles: Oracles
    var errors: seq<Message>
    var checks: nat

    constructor (root: Schema, oracles: Oracles)
      ensures this.root == root && this.oracles == oracles && errors == [] && checks == 0
    {
      this.root, this.oracles, errors, checks := root, oracles, [], 0;
    }

    /** Errors are only ever added, and none was added since `before` iff `ok`. */
    ghost predicate Added(before: seq<Message>, ok: bool)
      reads this
    {
      before <= errors && (ok <==> errors == before)
    }

    method Check(condition: bool, path: Path, what: string)
      modifies this
      ensures checks == old(checks) + 1
      ensures errors == if condition then old(errors) else old(errors) + [Message(path, what)]
    {
      checks := checks + 1;
      if !condition {
        errors := errors + [Message(path, what)];
      }
    }

    method ResolveRef(ref: string, path: Path) returns (target: Option<Schema>)
      modifies this
      ensures target == Resolve(root, ref) && Added(old(errors), target.Some?) && checks > old(checks)
    {
      var name := DefName(ref);
      Check(name.Some?, path, "$ref");
      if name.None? {
        return None;
      }
      target := Resolve(root, ref);
      Check(target.Some?, path, "$defs");
    }

    /** validate_instance adds no error iff the instance is accepted. */
    method ValidateInstance(j: Json, s: Schema, path: Path)
      requires ChainsEnd(root)
      modifies this
      ensures Added(old(errors), Accepts(oracles, root, j, s)) && checks > old(checks)
      decreases j, 1, ChainLength(root, s, {})
    {
      if s.ref.Some? {
        var target := ResolveRef(s.ref.value, path);
        if target.Some? {
          OneReferenceLess(root, s);
          ValidateInstance(j, target.value, path);
        }
        return;
      }
      assert Follow(root, s, {}) == Target(s);
      var typeOk := ValidateCommon(j, s, path);
      if !typeOk {
        return;
      }
      match j {
        case Obj(m) => ValidateObject(j, m, s, path);
        case Arr(es) => ValidateArray(j, es, s, path);
        case Str(t) => ValidateString(t, s, path);
        case Int(i) => ValidateNumber(i as real, s, path);
        case Float(r) => ValidateNumber(r, s, path);
        case _ =>
      }
    }

    /** The checks made whatever the instance is; a wrong type ends the validation. */
    method ValidateCommon(j: Json, s: Schema, path: Path) returns (typeOk: bool)
      modifies this
      ensures typeOk == TypeOk(s.typ, j) && checks > old(checks)
      ensures Added(old(errors),
                    && (s.constant.Some? ==> PyEq(j, s.constant.value))
                    && (s.enumeration.Some? ==> Contains(s.enumeration.value, j)) && typeOk)
    {
      if s.constant.Some? {
        Check(PyEq(j, s.constant.value), path, "const");
      }
      if s.enumeration.Some? {
        Check(Contains(s.enumeration.value, j), path, "enum");
      }
      typeOk := TypeOk(s.typ, j);
      Check(typeOk, path, "type");
    }

    method ValidateObject(j: Json, m: map<string, Json>, s: Schema, path: Path)
      requires ChainsEnd(root) && j == Obj(m)
      modifies this
      ensures Added(old(errors),
                    && (forall f :: f in s.required ==> f in m) && (s.closed ==> m.Keys <= s.properties.Keys)
                    && AtLeast(|m| as real, s.limits.minProperties) && ChildrenOk(oracles, root, j, s))
      ensures checks >= old(checks)
      decreases j, 0
    {
      for i := 0 to |s.required|
        invariant Added(old(errors), forall k :: 0 <= k < i ==> s.required[k] in m) && checks >= old(checks)
      {
        Check(s.required[i] in m, path, "required");
      }
      ghost var required := forall f :: f in s.required ==> f in m;
      assert Added(old(errors), required);
      if s.closed {
        Check(m.Keys <= s.properties.Keys, path, "additionalProperties");
      }
      ghost var closed := s.closed ==> m.Keys <= s.properties.Keys;
      assert Added(old(errors), required && closed);
      ValidateFields(j, m, s, path);
      if s.limits.minProperties.Some? {
        Check(|m| as real >= s.limits.minProperties.value, path, "minProperties");
      }
    }

    method ValidateFields(j: Json, m: map<string, Json>, s: Schema, path: Path)
      requires ChainsEnd(root) && j == Obj(m)
      modifies this
      ensures Added(old(errors), ChildrenOk(oracles, root, j, s)) && checks >= old(checks)
      decreases j, 0, 0
    {
      var todo := m.Keys;
      ghost var done: set<string> := {};
      while todo != {}
        invariant done + todo == m.Keys && done !! todo && checks >= old(checks)
        invariant Added(old(errors), forall f :: f in done ==> FieldOk(m, s, f))
        decreases todo
      {
        var f :| f in todo;
        if f in s.properties && s.properties[f].Sub? {
          ValidateInstance(m[f], s.properties[f].schema, path + [Field(f)]);
        }
        todo, done := todo - {f}, done + {f};
      }
      assert ChildrenOk(oracles, root, j, s) <==> forall f :: f in m ==> FieldOk(m, s, f);
    }

    ghost predicate FieldOk(m: map<string, Json>, s: Schema, f: string)
    {
      f in m && f in s.properties && s.properties[f].Sub? ==> Accepts(oracles, root, m[f], s.properties[f].schema)
    }

    method ValidateArray(j: Json, es: seq<Json>, s: Schema, path: Path)
      requires ChainsEnd(root) && j == Arr(es)
      modifies this
      ensures Added(old(errors),
                    && AtLeast(|es| as real, s.limits.minItems) && AtMost(|es| as real, s.limits.maxItems)
                    && (s.uniqueItems ==> Distinct(es)) && ChildrenOk(oracles, root, j, s))
      ensures checks >= old(checks)
      decreases j, 0
    {
      if s.limits.minItems.Some? {
        Check(|es| as real >= s.limits.minItems.value, path, "minItems");
      }
      if s.limits.maxItems.Some? {
        Check(|es| as real <= s.limits.maxItems.value, path, "maxItems");
      }
      if s.uniqueItems {
        Check(Distinct(es), path, "uniqueItems");
      }
      ValidateItems(j, es, s, path);
    }

    method ValidateItems(j: Json, es: seq<Json>, s: Schema, path: Path)
      requires ChainsEnd(root) && j == Arr(es)
      modifies this
      ensures Added(old(errors), ChildrenOk(oracles, root, j, s)) && checks >= old(checks)
      decreases j, 0, 0
    {
      if s.items.Some? && s.items.value.Sub? {
        for i := 0 to |es|
          invariant checks >= old(checks)
          invariant Added(old(errors), forall k :: 0 <= k < i ==> Accepts(oracles, root, es[k], s.items.value.schema))
        {
          ValidateInstance(es[i], s.items.value.schema, path + [Index(i)]);
        }
      }
    }

    method ValidateString(t: string, s: Schema, path: Path)
      modifies this
      ensures Added(old(errors),
                    && AtLeast(|t| as real, s.limits.minLength) && AtMost(|t| as real, s.limits.maxLength)
                    && (s.pattern.Some? ==> oracles.matches(s.pattern.value, t)) && FormatOk(oracles, s.format, t))
      ensures checks >= old(checks)
    {
      if s.limits.minLength.Some? {
        Check(|t| as real >= s.limits.minLength.value, path, "minLength");
      }
      if s.limits.maxLength.Some? {
        Check(|t| as real <= s.limits.maxLength.value, path, "maxLength");
      }
      if s.pattern.Some? {
        Check(oracles.matches(s.pattern.value, t), path, "pattern");
      }
      if s.format == Some(Str("date-time")) {
        Check(oracles.isDateTime(t), path, "date-time");
      }
      if s.format == Some(Str("date")) && !oracles.isDate(t) {
        Check(false, path, "date");
      }
    }

    method ValidateNumber(r: real, s: Schema, path: Path)
      modifies this
      ensures Added(old(errors), AtLeast(r, s.limits.minimum) && AtMost(r, s.limits.maximum))
      ensures checks >= old(checks)
    {
      if s.limits.minimum.Some? {
        Check(r >= s.limits.minimum.value, path, "minimum");
      }
      if s.limits.maximum.Some? {
        Check(r <= s.limits.maximum.value, path, "maximum");
      }
    }
  }

  /** The lists _compare_schema appends to. */
  class Comparison {
    var errors: seq<Message>
    var warnings: seq<Message>

    constructor ()
      ensures errors == [] && warnings == []
    {
      errors, warnings := [], [];
    }

    /** Messages are only ever added, and no error was added since `before` iff `ok`. */
    ghost predicate Added(before: seq<Message>, ok: bool)
      reads this
    {
      before <= errors && (ok <==> errors == before)
    }

    method Report(ok: bool, path: Path, what: string)
      modifies `errors
      ensures errors == if ok then old(errors) else old(errors) + [Message(path, what)]
    {
      if !ok {
        errors := errors + [Message(path, what)];
      }
    }

    /** _compare_schema adds no error iff the two are compatible. */
    method CompareNode(b: Node, c: Node, path: Path) returns (checks: nat)
      modifies this
      ensures Added(old(errors), Compatible(b, c)) && old(warnings) <= warnings && checks >= 1
      decreases b
    {
      match (b, c) {
        case (Sub(x), Sub(y)) => checks := CompareSchema(x, y, path);
        case (Lit(x), Lit(y)) => Report(PyEq(x, y), path, "schema"); checks := 1;
        case _ => Report(false, path, "schema"); checks := 1;
      }
    }

    method CompareSchema(b: Schema, c: Schema, path: Path) returns (checks: nat)
      modifies this
      ensures Added(old(errors), CompatibleSchema(b, c)) && old(warnings) <= warnings && checks >= 1
      decreases b
    {
      checks := CompareKeywords(b, c, path);
      var n := CompareMembers(b, b.properties, c.properties, "properties", path);
      checks := checks + n;
      n := CompareMembers(b, b.defs, c.defs, "$defs", path);
      checks := checks + n;
      if b.items.Some? && b.items.value.Sub? {
        checks := checks + 1;
        if c.items.None? || c.items.value.Lit? {
          Report(false, path, "items");
        } else {
          n := CompareNode(b.items.value, c.items.value, path + [Keyword("items")]);
          checks := checks + n;
        }
      }
      if !b.closed && c.closed {
        checks := checks + 1;
        Report(false, path, "additionalProperties");
      }
    }

    method CompareKeywords(b: Schema, c: Schema, path: Path) returns (checks: nat)
      modifies this
      ensures Added(old(errors), KeywordsKept(b, c.(closed := b.closed))) && old(warnings) <= warnings && checks >= 1
    {
      var n := CompareFixed(b, c, path);
      checks := 1 + n + |b.required| + 1;
      CompareEnum(b, c, path);
      CompareLower(b.limits, c.limits, path);
      CompareUpper(b.limits, c.limits, path);
      if b.pattern.Some? {
        Report(c.pattern == b.pattern, path, "pattern");
        checks := checks + 1;
      }
      CompareRequired(b.required, c.required, path);
    }

    method CompareFixed(b: Schema, c: Schema, path: Path) returns (checks: nat)
      modifies `errors
      ensures Added(old(errors), Kept(b.typ, c.typ) && (b.ref.Some? ==> c.ref == b.ref) &&
                                 Kept(b.format, c.format) && Kept(b.constant, c.constant))
    {
      checks := 0;
      if b.typ.Some? {
        Report(Kept(b.typ, c.typ), path, "type");
        checks := checks + 1;
      }
      if b.ref.Some? {
        Report(c.ref == b.ref, path, "$ref");
        checks := checks + 1;
      }
      if b.format.Some? {
        Report(Kept(b.format, c.format), path, "format");
        checks := checks + 1;
      }
      if b.constant.Some? {
        Report(Kept(b.constant, c.constant), path, "const");
        checks := checks + 1;
      }
    }

    method CompareRequired(b: seq<string>, c: seq<string>, path: Path)
      modifies `errors
      ensures Added(old(errors), (forall f :: f in b ==> f in c) && (forall f :: f in c ==> f in b))
    {
      Report(forall f :: f in b ==> f in c, path, "required removed");
      Report(forall f :: f in c ==> f in b, path, "required added");
    }

    method CompareEnum(b: Schema, c: Schema, path: Path)
      modifies this
      ensures Added(old(errors), EnumKept(b.enumeration, c.enumeration)) && old(warnings) <= warnings
    {
      if b.enumeration.Some? {
        if c.enumeration.None? {
          Report(false, path, "enum removed");
        } else {
          var old_, new_ := b.enumeration.value, c.enumeration.value;
          Report(forall i :: 0 <= i < |old_| ==> Contains(new_, old_[i]), path, "enum values removed");
          if exists i :: 0 <= i < |new_| && !Contains(old_, new_[i]) {
            warnings := warnings + [Message(path, "enum values added")];
          }
        }
      }
    }

    method CompareLower(b: Limits, c: Limits, path: Path)
      modifies `errors
      ensures Added(old(errors), NotRaised(b.minimum, c.minimum) && NotRaised(b.minLength, c.minLength) &&
                                 NotRaised(b.minItems, c.minItems) && NotRaised(b.minProperties, c.minProperties))
    {
      Report(NotRaised(b.minimum, c.minimum), path, "minimum");
      Report(NotRaised(b.minLength, c.minLength), path, "minLength");
      Report(NotRaised(b.minItems, c.minItems), path, "minItems");
      Report(NotRaised(b.minProperties, c.minProperties), path, "minProperties");
    }

    method CompareUpper(b: Limits, c: Limits, path: Path)
      modifies `errors
      ensures Added(old(errors), NotLowered(b.maximum, c.maximum) && NotLowered(b.maxLength, c.maxLength) &&
                                 NotLowered(b.maxItems, c.maxItems) && NotLowered(b.maxProperties, c.maxProperties))
    {
      Report(NotLowered(b.maximum, c.maximum), path, "maximum");
      Report(NotLowered(b.maxLength, c.maxLength), path, "maxLength");
      Report(NotLowered(b.maxItems, c.maxItems), path, "maxItems");
      Report(NotLowered(b.maxProperties, c.maxProperties), path, "maxProperties");
    }

    /** The members of `properties` or of `$defs`: none may be missing, and the common ones are compared. */
    method CompareMembers(ghost owner: Schema, b: map<string, Node>, c: map<string, Node>, keyword: string, path: Path)
      returns (checks: nat)
      requires b == owner.properties || b == owner.defs
      modifies this
      ensures Added(old(errors), forall n :: n in b ==> n in c && Compatible(b[n], c[n])) && old(warnings) <= warnings
      decreases owner, 0
    {
      Report(b.Keys <= c.Keys, path, keyword);
      var n := CompareCommon(owner, b, c, b.Keys * c.Keys, keyword, path);
      checks := |b| + n;
      assert b.Keys <= c.Keys ==> b.Keys * c.Keys == b.Keys;
    }

    method CompareCommon(ghost owner: Schema, b: map<string, Node>, c: map<string, Node>, common: set<string>,
                         keyword: string, path: Path)
      returns (checks: nat)
      requires (b == owner.properties || b == owner.defs) && common == b.Keys * c.Keys
      modifies this
      ensures Added(old(errors), forall n :: n in common ==> Compatible(b[n], c[n])) && old(warnings) <= warnings
      decreases owner, 0, 0
    {
      checks := 0;
      var todo := common;
      ghost var done: set<string> := {};
      while todo != {}
        invariant done + todo == common && done !! todo && old(warnings) <= warnings
        invariant Added(old(errors), forall n :: n in done ==> Compatible(b[n], c[n]))
        decreases todo
      {
        var n :| n in todo;
        var more := CompareNode(b[n], c[n], path + [Keyword(keyword), Field(n)]);
        checks := checks + more;
        todo, done := todo - {n}, done + {n};
      }
    }
  }
}
