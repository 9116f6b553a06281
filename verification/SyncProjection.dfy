/** The conflict-preserving projection of one event: Peer._project_event. */
module SyncProjection {
  import opened Json
  import opened SyncModel

  /** Alternatives of a field: each distinct value with the revisions that proposed it. */
  type Alternatives = map<Json, set<Envelope>>

  /** A sorted list of revision ids is represented by the set of the revisions themselves. */
  datatype Projection =
    | Deleted(tombstoneCount: nat)
    | Live(conflicted: bool, revision: nat, fields: map<string, Json>, conflicts: map<string, Alternatives>,
           revisions: set<Envelope>, gaps: set<nat>)

  function Bases(rs: set<Envelope>): set<nat> {
    set e | e in rs :: BaseOf(e)
  }

  function AtBase(rs: set<Envelope>, b: nat): set<Envelope> {
    set e | e in rs && BaseOf(e) == b
  }

  function Mentioning(rs: set<Envelope>, f: string): set<Envelope> {
    set e | e in rs && f in e.payload.changes
  }

  function FieldsOf(rs: set<Envelope>): set<string> {
    set e, f | e in rs && f in e.payload.changes :: f
  }

  function ValuesOf(rs: set<Envelope>, f: string): set<Json> {
    set e | e in Mentioning(rs, f) :: e.payload.changes[f]
  }

  function Proposing(rs: set<Envelope>, f: string, v: Json): set<Envelope> {
    set e | e in Mentioning(rs, f) && e.payload.changes[f] == v
  }

  /** What the revisions at one base propose, field by field. */
  function ByField(rs: set<Envelope>): map<string, Alternatives> {
    map f | f in FieldsOf(rs) :: map v | v in ValuesOf(rs, f) :: Proposing(rs, f, v)
  }

  datatype Layer = Layer(fields: map<string, Json>, conflicts: map<string, Alternatives>)

  predicate Unanimous(a: Alternatives) { |a| == 1 }

  ghost function TheValue(a: Alternatives): Json
    requires Unanimous(a)
  {
    var v :| v in a; v
  }

  /** The fields one base agrees on, and those it disputes. */
  ghost function Agreed(alts: map<string, Alternatives>): map<string, Json> {
    map f | f in alts && Unanimous(alts[f]) :: TheValue(alts[f])
  }

  ghost function Disputed(alts: map<string, Alternatives>): map<string, Alternatives> {
    map f | f in alts && !Unanimous(alts[f]) :: alts[f]
  }

  /** All fields of one base. */
  ghost function Merge(l: Layer, alts: map<string, Alternatives>): Layer {
    Layer(l.fields + Agreed(alts), (l.conflicts - Agreed(alts).Keys) + Disputed(alts))
  }

  /** The layers of bases 0 .. n-1, in order. */
  ghost function Layered(rs: set<Envelope>, n: nat): Layer {
    if n == 0 then Layer(map[], map[])
    else Merge(Layered(rs, n - 1), ByField(AtBase(rs, n - 1)))
  }

  /** The least number from n on that is not a base. */
  ghost function FirstMissing(bases: set<nat>, n: nat): (r: nat)
    ensures r >= n && r !in bases && forall b: nat :: n <= b < r ==> b in bases
    decreases |bases|
  {
    if n !in bases then n
    else
      var rest := bases - {n};
      var r := FirstMissing(rest, n + 1);
      assert forall b: nat :: n + 1 <= b < r ==> b in rest;
      assert forall b: nat :: b in rest ==> b in bases;
      r
  }

  ghost function Revision(rs: set<Envelope>): nat { FirstMissing(Bases(rs), 0) }

  ghost function ProjectLive(rs: set<Envelope>): Projection {
    var n := Revision(rs);
    var l := Layered(rs, n);
    Live(l.conflicts != map[], n, l.fields, l.conflicts, rs, set b | b in Bases(rs) && b > n)
  }

  /** The last base below n at which some revision mentions the field. */
  ghost function LastMention(rs: set<Envelope>, f: string, n: nat): Option<nat> {
    if n == 0 then None
    else if f in FieldsOf(AtBase(rs, n - 1)) then Some(n - 1)
    else LastMention(rs, f, n - 1)
  }

  /** The last base below n at which all revisions mentioning the field agree on it. */
  ghost function LastAgreement(rs: set<Envelope>, f: string, n: nat): Option<nat> {
    if n == 0 then None
    else if f in FieldsOf(AtBase(rs, n - 1)) && |ValuesOf(AtBase(rs, n - 1), f)| == 1 then Some(n - 1)
    else LastAgreement(rs, f, n - 1)
  }

  lemma ByFieldKeys(rs: set<Envelope>, f: string)
    requires f in FieldsOf(rs)
    ensures ByField(rs)[f].Keys == ValuesOf(rs, f) && |ByField(rs)[f]| == |ValuesOf(rs, f)|
    ensures ValuesOf(rs, f) != {}
  {
    var a := ByField(rs)[f];
    assert |a| == |a.Keys|;
    var e :| e in rs && f in e.payload.changes;
    assert e.payload.changes[f] in ValuesOf(rs, f);
  }

  ghost predicate SameAt(l: Layer, r: Layer, f: string) {
    && (f in r.fields <==> f in l.fields) && (f in r.fields ==> r.fields[f] == l.fields[f])
    && (f in r.conflicts <==> f in l.conflicts) && (f in r.conflicts ==> r.conflicts[f] == l.conflicts[f])
  }

  /** What merging the fields `done` of one base does to field f: a unanimous value replaces the field and clears
      its conflict; otherwise the alternatives are recorded and the field keeps the value it had. */
  ghost predicate MergedAt(l: Layer, r: Layer, alts: map<string, Alternatives>, done: set<string>, f: string) {
    if f !in alts || f !in done then SameAt(l, r, f)
    else if Unanimous(alts[f]) then f in r.fields && r.fields[f] == TheValue(alts[f]) && f !in r.conflicts
    else
      && (f in r.fields <==> f in l.fields) && (f in r.fields ==> r.fields[f] == l.fields[f])
      && f in r.conflicts && r.conflicts[f] == alts[f]
  }

  lemma MergeAt(l: Layer, alts: map<string, Alternatives>, f: string)
    ensures MergedAt(l, Merge(l, alts), alts, alts.Keys, f)
  {
  }

  lemma MergedEverywhere(l: Layer, r: Layer, alts: map<string, Alternatives>)
    requires forall f :: MergedAt(l, r, alts, alts.Keys, f)
    ensures r == Merge(l, alts)
  {
    var m := Merge(l, alts);
    forall f ensures SameAt(m, r, f) {
      MergeAt(l, alts, f);
      assert MergedAt(l, r, alts, alts.Keys, f);
    }
    SameEverywhere(m, r);
  }

  lemma SameEverywhere(l: Layer, r: Layer)
    requires forall f :: SameAt(l, r, f)
    ensures l == r
  {
    forall f
      ensures f in l.fields <==> f in r.fields
      ensures f in l.fields ==> l.fields[f] == r.fields[f]
      ensures f in l.conflicts <==> f in r.conflicts
      ensures f in l.conflicts ==> l.conflicts[f] == r.conflicts[f]
    {
      assert SameAt(l, r, f);
    }
  }

  /** Field f of a layer agrees with the last agreement and the last mention below n. */
  ghost predicate FieldOk(l: Layer, rs: set<Envelope>, f: string, n: nat) {
    && (match LastAgreement(rs, f, n)
        case None => f !in l.fields
        case Some(b) => f in l.fields && b < n && ValuesOf(AtBase(rs, b), f) == {l.fields[f]})
    && (match LastMention(rs, f, n)
        case None => f !in l.conflicts
        case Some(b) =>
          var here := AtBase(rs, b);
          && b < n && f in FieldsOf(here)
          && (f in l.conflicts <==> |ValuesOf(here, f)| != 1)
          && (f in l.conflicts ==> l.conflicts[f] == ByField(here)[f])
          && (f !in l.conflicts ==> LastAgreement(rs, f, n) == Some(b)))
    && (LastMention(rs, f, n).None? ==> LastAgreement(rs, f, n).None?)
  }

  lemma FieldStep(l: Layer, r: Layer, rs: set<Envelope>, f: string, n: nat)
    requires n > 0 && FieldOk(l, rs, f, n - 1)
    requires var alts := ByField(AtBase(rs, n - 1)); MergedAt(l, r, alts, alts.Keys, f)
    ensures FieldOk(r, rs, f, n)
  {
    var here := AtBase(rs, n - 1);
    assert ByField(here).Keys == FieldsOf(here);
    LastStep(rs, f, n);
    hide LastMention, LastAgreement, AtBase, ByField, FieldsOf, ValuesOf, Unanimous, TheValue;
    if f in FieldsOf(here) {
      ByFieldKeys(here, f);
      UnanimousValue(here, f);
    }
  }

  lemma UnanimousValue(rs: set<Envelope>, f: string)
    requires f in FieldsOf(rs)
    ensures Unanimous(ByField(rs)[f]) <==> |ValuesOf(rs, f)| == 1
    ensures Unanimous(ByField(rs)[f]) ==> ValuesOf(rs, f) == {TheValue(ByField(rs)[f])}
  {
    ByFieldKeys(rs, f);
    if Unanimous(ByField(rs)[f]) {
      OnlyElement(ValuesOf(rs, f), TheValue(ByField(rs)[f]));
    }
  }

  lemma LastStep(rs: set<Envelope>, f: string, n: nat)
    requires n > 0
    ensures var here := AtBase(rs, n - 1);
      && LastMention(rs, f, n) == (if f in FieldsOf(here) then Some(n - 1) else LastMention(rs, f, n - 1))
      && LastAgreement(rs, f, n) == (if f in FieldsOf(here) && |ValuesOf(here, f)| == 1 then Some(n - 1) else LastAgreement(rs, f, n - 1))
  {
  }

  lemma {:induction false} LayeredMeaning(rs: set<Envelope>, f: string, n: nat)
    ensures FieldOk(Layered(rs, n), rs, f, n)
  {
    if n > 0 {
      LayeredMeaning(rs, f, n - 1);
      MergeAt(Layered(rs, n - 1), ByField(AtBase(rs, n - 1)), f);
      FieldStep(Layered(rs, n - 1), Layered(rs, n), rs, f, n);
    }
  }

  lemma OnlyElement<T>(s: set<T>, v: T)
    requires |s| == 1 && v in s
    ensures s == {v}
  {
    var rest := s - {v};
    assert |rest| == 0;
    assert s == rest + {v};
  }

  lemma TwoValues(s: set<Json>)
    requires s != {}
    ensures |s| != 1 <==> exists v, w :: v in s && w in s && v != w
  {
    var v :| v in s;
    if |s| == 1 {
      OnlyElement(s, v);
    } else {
      assert |{v}| == 1;
      var rest := s - {v};
      assert s == rest + {v};
      var w :| w in rest;
    }
  }

  lemma RevisionMeaning(rs: set<Envelope>)
    ensures var p := ProjectLive(rs);
      && p.revision !in Bases(rs) && (forall b: nat :: b < p.revision ==> b in Bases(rs))
      && (forall b: nat :: b in p.gaps <==> b in Bases(rs) && b > p.revision)
      && (p.conflicted <==> p.conflicts != map[])
  {
    hide Layered, Bases;
  }

  lemma LiveFieldOk(rs: set<Envelope>, f: string)
    ensures var p := ProjectLive(rs); FieldOk(Layer(p.fields, p.conflicts), rs, f, p.revision)
  {
    LayeredMeaning(rs, f, Revision(rs));
    hide FieldOk;
  }

  /** What the projection of an untombstoned event means. Its revision is the least number missing from the
      bases, its gaps are the bases above that; a field is in conflict iff the last gap-free base that mentions
      it holds two distinct values; otherwise its value is the one all revisions at that base give it. While a
      field is in conflict its entry in `fields` stays at the last base where the revisions agreed. */
  lemma ProjectionMeaning(rs: set<Envelope>, f: string)
    ensures var p := ProjectLive(rs);
      && p.revision !in Bases(rs) && (forall b: nat :: b < p.revision ==> b in Bases(rs))
      && (forall b: nat :: b in p.gaps <==> b in Bases(rs) && b > p.revision)
      && (p.conflicted <==> p.conflicts != map[])
    ensures var p := ProjectLive(rs);
      match LastMention(rs, f, p.revision)
      case None => f !in p.fields && f !in p.conflicts
      case Some(b) =>
        var here := AtBase(rs, b);
        if exists v, w :: v in ValuesOf(here, f) && w in ValuesOf(here, f) && v != w then
          && f in p.conflicts && p.conflicts[f].Keys == ValuesOf(here, f)
          && (forall v :: v in p.conflicts[f] ==> p.conflicts[f][v] == Proposing(here, f, v))
        else
          f !in p.conflicts && f in p.fields && ValuesOf(here, f) == {p.fields[f]}
    ensures var p := ProjectLive(rs);
      match LastAgreement(rs, f, p.revision)
      case None => f !in p.fields
      case Some(b) => f in p.fields && ValuesOf(AtBase(rs, b), f) == {p.fields[f]}
  {
    hide FieldOk, LastMention, LastAgreement, Bases, AtBase, Proposing, ValuesOf, FieldsOf, Layered, ByField;
    RevisionMeaning(rs);
    LiveFieldOk(rs, f);
    var p := ProjectLive(rs);
    assert p.Live?;
    hide ProjectLive;
    FieldMeaning(Layer(p.fields, p.conflicts), rs, f, p.revision);
  }

  /** What a layer says of a field, in terms of two distinct values instead of their number. */
  lemma FieldMeaning(l: Layer, rs: set<Envelope>, f: string, n: nat)
    requires FieldOk(l, rs, f, n)
    ensures match LastMention(rs, f, n)
      case None => f !in l.fields && f !in l.conflicts
      case Some(b) =>
        var here := AtBase(rs, b);
        if exists v, w :: v in ValuesOf(here, f) && w in ValuesOf(here, f) && v != w then
          && f in l.conflicts && l.conflicts[f].Keys == ValuesOf(here, f)
          && (forall v :: v in l.conflicts[f] ==> l.conflicts[f][v] == Proposing(here, f, v))
        else
          f !in l.conflicts && f in l.fields && ValuesOf(here, f) == {l.fields[f]}
    ensures match LastAgreement(rs, f, n)
      case None => f !in l.fields
      case Some(b) => f in l.fields && ValuesOf(AtBase(rs, b), f) == {l.fields[f]}
  {
    if LastMention(rs, f, n).Some? {
      var here := AtBase(rs, LastMention(rs, f, n).value);
      ByFieldKeys(here, f);
      TwoValues(ValuesOf(here, f));
    }
  }
}
