/** Schema evolution: what a clean comparison says about the instances the two schemas accept. */
module SchemaEvolution {
  import opened Json
  import opened SchemaLanguage

  /** The current schema has no keyword of these kinds that the baseline lacks. */
  predicate NoNewLimit(b: Limits, c: Limits) {
    && (b.minimum.None? ==> c.minimum.None?) && (b.minLength.None? ==> c.minLength.None?)
    && (b.minItems.None? ==> c.minItems.None?) && (b.minProperties.None? ==> c.minProperties.None?)
    && (b.maximum.None? ==> c.maximum.None?) && (b.maxLength.None? ==> c.maxLength.None?)
    && (b.maxItems.None? ==> c.maxItems.None?)
  }

  predicate NoNewKeyword(b: Schema, c: Schema) {
    && c.ref.None?
    && (b.typ.None? ==> c.typ.None?) && (b.constant.None? ==> c.constant.None?)
    && (b.enumeration.None? ==> c.enumeration.None?)
    && (b.format.None? ==> c.format.None?) && (b.pattern.None? ==> c.pattern.None?)
    && NoNewLimit(b.limits, c.limits)
    && (c.uniqueItems ==> b.uniqueItems)
    && (c.items.Some? && c.items.value.Sub? ==> b.items.Some? && b.items.value.Sub?)
  }

  predicate AddsNothingNode(b: Node, c: Node)
    decreases b
  {
    b.Sub? && c.Sub? ==> AddsNothing(b.schema, c.schema)
  }

  /** Nothing that constrains instances is new: no keyword, and no property schema unless the baseline refused
      unlisted properties. Beside a reference nothing matters, because validation ignores its siblings. */
  predicate AddsNothing(b: Schema, c: Schema)
    decreases b
  {
    b.ref.Some? ||
    (&& NoNewKeyword(b, c)
     && (forall n :: n in c.properties && n !in b.properties ==> b.closed || c.properties[n].Lit?)
     && (forall n :: n in b.properties && n in c.properties ==> AddsNothingNode(b.properties[n], c.properties[n]))
     && (b.items.Some? && c.items.Some? ==> AddsNothingNode(b.items.value, c.items.value)))
  }

  /** A compatible successor that adds nothing. */
  predicate Evolves(b: Schema, c: Schema) { CompatibleSchema(b, c) && AddsNothing(b, c) }

  /** The same for the two documents: every baseline definition evolves into the one of the same name. */
  predicate RootEvolves(b: Schema, c: Schema) {
    forall n :: n in b.defs && b.defs[n].Sub? ==>
      n in c.defs && c.defs[n].Sub? && Evolves(b.defs[n].schema, c.defs[n].schema)
  }

  lemma {:induction false} FollowEvolves(rb: Schema, rc: Schema, b: Schema, c: Schema, seen: set<string>)
    requires RootEvolves(rb, rc) && Evolves(b, c) && Follow(rb, b, seen).Target?
    ensures Follow(rc, c, seen).Target?
    ensures Evolves(Follow(rb, b, seen).schema, Follow(rc, c, seen).schema)
    ensures Follow(rb, b, seen).schema.ref.None?
    decreases rb.defs.Keys - seen
  {
    if b.ref.Some? {
      var name := DefName(b.ref.value).value;
      FollowEvolves(rb, rc, rb.defs[name].schema, rc.defs[name].schema, seen + {name});
    }
  }

  lemma ContainsKept(b: seq<Json>, c: seq<Json>, v: Json)
    requires Contains(b, v) && forall i :: 0 <= i < |b| ==> Contains(c, b[i])
    ensures Contains(c, v)
  {
    var i :| 0 <= i < |b| && PyEq(b[i], v);
    var j :| 0 <= j < |c| && PyEq(c[j], b[i]);
    assert PyEq(c[j], v);
  }

  lemma KeptTypeIsOk(b: Option<Json>, c: Option<Json>, j: Json)
    requires Kept(b, c) && (b.None? ==> c.None?) && TypeOk(b, j)
    ensures TypeOk(c, j)
  {
    if b.Some? && c.Some? && c.value.Str? {
      assert Norm(c.value) == c.value;
    }
  }

  lemma KeptFormatIsOk(o: Oracles, b: Option<Json>, c: Option<Json>, s: string)
    requires Kept(b, c) && (b.None? ==> c.None?) && FormatOk(o, b, s)
    ensures FormatOk(o, c, s)
  {
    if b.Some? && c.Some? && c.value.Str? {
      assert Norm(c.value) == c.value;
    }
  }

  lemma LocalEvolves(o: Oracles, j: Json, b: Schema, c: Schema)
    requires KeywordsKept(b, c) && NoNewKeyword(b, c) && LocallyOk(o, j, b)
    requires forall n :: n in b.properties ==> n in c.properties
    ensures LocallyOk(o, j, c)
  {
    hide Norm;
    KeptTypeIsOk(b.typ, c.typ, j);
    if c.enumeration.Some? {
      ContainsKept(b.enumeration.value, c.enumeration.value, j);
    }
    if j.Str? {
      KeptFormatIsOk(o, b.format, c.format, j.s);
    }
  }

  /** Compatibility soundness. If the comparison of two documents is clean and the current one adds nothing, every
      instance accepted by a baseline schema is accepted by its successor, whatever patterns and dates mean. */
  lemma {:induction false} CompatibleAcceptsAll(o: Oracles, rb: Schema, rc: Schema, j: Json, b: Schema, c: Schema)
    requires RootEvolves(rb, rc) && Evolves(b, c) && Accepts(o, rb, j, b)
    ensures Accepts(o, rc, j, c)
    decreases j, 1
  {
    FollowEvolves(rb, rc, b, c, {});
    var tb, tc := Follow(rb, b, {}).schema, Follow(rc, c, {}).schema;
    LocalEvolves(o, j, tb, tc);
    ChildrenEvolve(o, rb, rc, j, tb, tc);
  }

  lemma {:induction false} ChildrenEvolve(o: Oracles, rb: Schema, rc: Schema, j: Json, b: Schema, c: Schema)
    requires RootEvolves(rb, rc) && Evolves(b, c) && b.ref.None?
    requires LocallyOk(o, j, b) && ChildrenOk(o, rb, j, b)
    ensures ChildrenOk(o, rc, j, c)
    decreases j, 0
  {
    match j
    case Obj(m) =>
      forall f | f in m && f in c.properties && c.properties[f].Sub?
        ensures Accepts(o, rc, m[f], c.properties[f].schema)
      {
        assert f in b.properties;
        assert Compatible(b.properties[f], c.properties[f]) && AddsNothingNode(b.properties[f], c.properties[f]);
        CompatibleAcceptsAll(o, rb, rc, m[f], b.properties[f].schema, c.properties[f].schema);
      }
    case Arr(es) =>
      if c.items.Some? && c.items.value.Sub? {
        assert Compatible(b.items.value, c.items.value) && AddsNothingNode(b.items.value, c.items.value);
        forall i | 0 <= i < |es| ensures Accepts(o, rc, es[i], c.items.value.schema) {
          CompatibleAcceptsAll(o, rb, rc, es[i], b.items.value.schema, c.items.value.schema);
        }
      }
    case _ =>
  }

  /** For whole documents: a clean comparison of the roots is what makes all definitions compatible, so only
      "adds nothing" remains to be asked of them. */
  lemma {:induction false} CompatibleDocuments(o: Oracles, rb: Schema, rc: Schema, name: string, j: Json)
    requires CompatibleSchema(rb, rc)
    requires forall n :: n in rb.defs && n in rc.defs ==> AddsNothingNode(rb.defs[n], rc.defs[n])
    requires name in rb.defs && rb.defs[name].Sub? && Accepts(o, rb, j, rb.defs[name].schema)
    ensures name in rc.defs && rc.defs[name].Sub? && Accepts(o, rc, j, rc.defs[name].schema)
  {
    assert RootEvolves(rb, rc) by {
      forall n | n in rb.defs && rb.defs[n].Sub?
        ensures n in rc.defs && rc.defs[n].Sub? && Evolves(rb.defs[n].schema, rc.defs[n].schema)
      {
        assert Compatible(rb.defs[n], rc.defs[n]) && AddsNothingNode(rb.defs[n], rc.defs[n]);
      }
    }
    CompatibleAcceptsAll(o, rb, rc, j, rb.defs[name].schema, rc.defs[name].schema);
  }

  // ---- what a clean comparison alone does not give ----

  const NO_LIMITS := Limits(None, None, None, None, None, None, None, None)

  const ANYTHING := Schema.Schema(None, None, None, None, None, None, NO_LIMITS, [], map[], map[], None, false, false)

  lemma AnythingAccepts(o: Oracles, root: Schema, j: Json)
    ensures Accepts(o, root, j, ANYTHING)
  {
    assert Follow(root, ANYTHING, {}) == Target(ANYTHING);
  }

  /** A limit that is new in the current schema passes the comparison and refuses accepted instances. */
  lemma NewLimitSlipsThrough(o: Oracles, root: Schema, bound: int)
    ensures var c := ANYTHING.(limits := NO_LIMITS.(minimum := Some(bound as real)));
      && CompatibleSchema(ANYTHING, c)
      && Accepts(o, root, Int(bound - 1), ANYTHING) && !Accepts(o, root, Int(bound - 1), c)
  {
    AnythingAccepts(o, root, Int(bound - 1));
    var c := ANYTHING.(limits := NO_LIMITS.(minimum := Some(bound as real)));
    assert Follow(root, c, {}) == Target(c);
  }

  /** So does uniqueItems, which the comparison never looks at. */
  lemma NewUniquenessSlipsThrough(o: Oracles, root: Schema, x: Json)
    ensures var c := ANYTHING.(uniqueItems := true);
      && CompatibleSchema(ANYTHING, c)
      && Accepts(o, root, Arr([x, x]), ANYTHING) && !Accepts(o, root, Arr([x, x]), c)
  {
    AnythingAccepts(o, root, Arr([x, x]));
    var c := ANYTHING.(uniqueItems := true);
    assert Follow(root, c, {}) == Target(c);
    assert [x, x][0] == [x, x][1];
  }

  /** And so does a new property where unlisted properties were allowed, as soon as its schema refuses a value. */
  lemma NewPropertySlipsThrough(o: Oracles, root: Schema, name: string, s: Schema, x: Json)
    requires !Accepts(o, root, x, s)
    ensures var c := ANYTHING.(properties := map[name := Sub(s)]);
      && CompatibleSchema(ANYTHING, c)
      && Accepts(o, root, Obj(map[name := x]), ANYTHING) && !Accepts(o, root, Obj(map[name := x]), c)
  {
    AnythingAccepts(o, root, Obj(map[name := x]));
    var c := ANYTHING.(properties := map[name := Sub(s)]);
    assert Follow(root, c, {}) == Target(c);
    assert name in map[name := x] && name in c.properties;
  }
}
