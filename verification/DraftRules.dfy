/** Drafting an event from observations, and the checker that must accept the draft (rules.py, schema.py). Canonical
    JSON is injective, so values stand for their canonical text; ids are represented by their rank in string order. */
module DraftRules {
  import opened Json

  type Id = nat

  datatype Field = Time | Place | People | Action | Outcome | Intent | Description | Emotion | Relationship

  const FACT_FIELDS: set<Field> := {Time, Place, People, Action, Outcome, Intent, Description}

  const ALL_FIELDS: set<Field> := FACT_FIELDS + {Emotion, Relationship}

  datatype Status = Inferred | Planned | Observed | UserAsserted

  /** The known event types, by their rank in string order; the first is the one for events without a type. */
  type EventType = n: nat | n < 7

  const ACTIVITY: EventType := 0

  /** An observation that satisfies the schema; an event type that is not known counts as none. */
  datatype Observation = Observation(
    id: Id, space: string, status: Status, confidence: real, values: map<Field, Json>, correction: bool,
    time: Option<Json>, eventType: Option<EventType>, created: int)

  /** observation_supports_event_time: a time counts only beside some other fact. */
  predicate SupportsTime(o: Observation) {
    o.time.Some? && exists field :: field in o.values && field in FACT_FIELDS - {Time}
  }

  function ValueOf(field: Field, o: Observation): Option<Json> {
    if field == Time then (if SupportsTime(o) then o.time else None)
    else if field in o.values then Some(o.values[field]) else None
  }

  function Rank(status: Status): nat {
    match status
    case Inferred => 0
    case Planned => 1
    case Observed => 2
    case UserAsserted => 3
  }

  function Priority(o: Observation): nat {
    Rank(o.status) + if o.correction && o.status == UserAsserted then 1 else 0
  }

  // ---- one field ----

  function Choices(field: Field, os: set<Observation>): set<Observation> {
    set o | o in os && ValueOf(field, o).Some?
  }

  /** The choices no choice outranks. */
  function Top(field: Field, os: set<Observation>): set<Observation> {
    set o | o in Choices(field, os) && forall other :: other in Choices(field, os) ==> Priority(other) <= Priority(o)
  }

  function ValuesOf(field: Field, os: set<Observation>): set<Json> {
    set o | o in os && ValueOf(field, o).Some? :: ValueOf(field, o).value
  }

  function Ids(os: set<Observation>): set<Id> { set o | o in os :: o.id }

  datatype EvidenceStatus = Agreed(status: Status) | Conflict

  /** What is selected for a field: the value of the top choices, or in a conflict all of theirs; and the evidence. */
  datatype Selected = Selected(values: multiset<Json>, evidence: set<Id>, confidence: real, status: EvidenceStatus)

  function Saying(field: Field, os: set<Observation>, v: Json): set<Observation> {
    set o | o in os && ValueOf(field, o) == Some(v)
  }

  /** The greatest confidence, and the status all top choices share. */
  ghost predicate Describes(field: Field, os: set<Observation>, s: Selected) {
    var top := Top(field, os);
    && s.evidence == Ids(top)
    && (forall o :: o in top ==> o.confidence <= s.confidence) && (exists o :: o in top && o.confidence == s.confidence)
    && (if |ValuesOf(field, top)| > 1 then s.status == Conflict && forall v :: s.values[v] == |Saying(field, top, v)|
        else s.values == multiset(ValuesOf(field, top)) && s.status.Agreed? && forall o :: o in top ==> o.status == s.status.status)
  }

  /** Equal priority means equal status, so the top choices share theirs. */
  lemma TopAgreesOnStatus(field: Field, os: set<Observation>, a: Observation, b: Observation)
    requires a in Top(field, os) && b in Top(field, os)
    ensures a.status == b.status
  {
    assert Priority(a) == Priority(b);
  }

  lemma TopExists(field: Field, os: set<Observation>)
    requires Choices(field, os) != {}
    ensures Top(field, os) != {}
  {
    var best := Highest(Choices(field, os));
    assert best in Top(field, os);
  }

  ghost function Highest(os: set<Observation>): (best: Observation)
    requires os != {}
    ensures best in os && forall o :: o in os ==> Priority(o) <= Priority(best)
    decreases os
  {
    var o :| o in os;
    if os == {o} then o
    else
      var rest := Highest(os - {o});
      assert forall x :: x in os ==> x == o || x in os - {o};
      if Priority(rest) < Priority(o) then o else rest
  }

  // ---- the draft ----

  datatype FactStatus = ConflictFact | PlannedFact | UserFact | LowConfidence

  /** The candidate's id is a digest of its space, the ids given, the values of its fields and its fact status. */
  datatype Draft = Draft(
    space: string, fields: map<Field, Selected>, fact: FactStatus, superseded: set<Id>, eventType: EventType, created: int,
    ids: multiset<Id>)

  datatype Failure = DataInsufficient | SpaceDenied | SchemaMismatch

  datatype Built = Good(draft: Draft) | Bad(failure: Failure)

  function FactStatuses(fields: map<Field, Selected>): set<EvidenceStatus> {
    set f | f in fields && f in FACT_FIELDS :: fields[f].status
  }

  function FactStatusOf(fields: map<Field, Selected>): FactStatus {
    var statuses := FactStatuses(fields);
    if Conflict in statuses then ConflictFact
    else if statuses == {Agreed(Planned)} then PlannedFact
    else if Agreed(UserAsserted) in statuses then UserFact
    else LowConfidence
  }

  function Superseded(field: Field, os: set<Observation>): set<Id> {
    Ids(Choices(field, os) - Top(field, os))
  }

  /** Ids are distinct. */
  predicate Distinct(os: set<Observation>) {
    forall a, b :: a in os && b in os && a.id == b.id ==> a == b
  }

  function Spaces(os: set<Observation>): set<string> { set o | o in os :: o.space }

  // ---- its event type ----

  /** How observations are ranked for the event type: a correction counts whatever its status. */
  function TypeRank(o: Observation): nat { Rank(o.status) + if o.correction then 1 else 0 }

  function FactIds(fields: map<Field, Selected>): set<Id> {
    set f, id | f in fields && f in FACT_FIELDS && id in fields[f].evidence :: id
  }

  /** The observations whose event type counts: cited for a fact, and of a known type. */
  function Typed(fields: map<Field, Selected>, os: set<Observation>): set<Observation> {
    set o | o in os && o.id in FactIds(fields) && o.eventType.Some?
  }

  /** The order of the triples of rank, id and type. */
  predicate TypedBelow(a: Observation, b: Observation)
    requires a.eventType.Some? && b.eventType.Some?
  {
    || TypeRank(a) < TypeRank(b)
    || (TypeRank(a) == TypeRank(b) && (a.id < b.id || (a.id == b.id && a.eventType.value <= b.eventType.value)))
  }

  ghost predicate IsEventType(t: EventType, typed: set<Observation>)
    requires forall o :: o in typed ==> o.eventType.Some?
  {
    if typed == {} then t == ACTIVITY
    else exists o :: o in typed && o.eventType == Some(t) && forall p :: p in typed ==> TypedBelow(p, o)
  }

  lemma EventTypeIsUnique(a: EventType, b: EventType, typed: set<Observation>)
    requires forall o :: o in typed ==> o.eventType.Some?
    requires IsEventType(a, typed) && IsEventType(b, typed)
    ensures a == b
  {
    if typed != {} {
      var x :| x in typed && x.eventType == Some(a) && forall p :: p in typed ==> TypedBelow(p, x);
      var y :| y in typed && y.eventType == Some(b) && forall p :: p in typed ==> TypedBelow(p, y);
      assert TypedBelow(x, y) && TypedBelow(y, x);
    }
  }

  // ---- what is built ----

  function Elements(m: multiset<Observation>): set<Observation> { set o | o in m }

  /** The ids of a list, with repetitions. */
  function IdList(items: seq<Observation>): multiset<Id> {
    if items == [] then multiset{} else IdList(items[..|items| - 1]) + multiset{items[|items| - 1].id}
  }

  ghost predicate AreTheIds(ids: multiset<Id>, m: multiset<Observation>) {
    exists items :: multiset(items) == m && ids == IdList(items)
  }

  /** Some field would cite an id twice. */
  ghost predicate CitesTwice(m: multiset<Observation>) {
    exists f :: f in ALL_FIELDS && CitedTwice(m, f)
  }

  ghost predicate CitedTwice(m: multiset<Observation>, f: Field) {
    var top := Top(f, Elements(m));
    exists o, p :: o in top && p in top && o.id == p.id && (o != p || m[o] > 1)
  }

  /** What build_event_draft gives for some observations: a field is there when some observation carries it. The draft is
      refused without observations, across spaces and without a fact; and by the schema, when the times conflict, because a
      list of times is no time range, and when a field cites an id twice. */
  ghost predicate IsBuilt(m: multiset<Observation>, built: Built) {
    var os := Elements(m);
    if os == {} then built == Bad(DataInsufficient)
    else if |Spaces(os)| != 1 then built == Bad(SpaceDenied)
    else if forall f :: f in FACT_FIELDS ==> Choices(f, os) == {} then built == Bad(DataInsufficient)
    else if |ValuesOf(Time, Top(Time, os))| > 1 || CitesTwice(m) then built == Bad(SchemaMismatch)
    else
      && built.Good? && Spaces(os) == {built.draft.space}
      && (forall f :: f in built.draft.fields <==> f in ALL_FIELDS && Choices(f, os) != {})
      && (forall f :: f in built.draft.fields ==> Describes(f, os, built.draft.fields[f]))
      && built.draft.fact == FactStatusOf(built.draft.fields)
      && (forall id :: id in built.draft.superseded <==> exists f :: f in ALL_FIELDS && id in Superseded(f, os))
      && IsEventType(built.draft.eventType, Typed(built.draft.fields, os))
      && (exists o :: o in os && o.created == built.draft.created) && (forall o :: o in os ==> o.created <= built.draft.created)
      && AreTheIds(built.draft.ids, m)
  }

  lemma {:induction false} IdListPermuted(a: seq<Observation>, b: seq<Observation>)
    requires multiset(a) == multiset(b)
    ensures IdList(a) == IdList(b)
  {
    if a == [] {
      assert |multiset(a)| == |a| && |multiset(b)| == |b|;
    } else {
      hide IdList;
      var n, last := |a| - 1, a[|a| - 1];
      assert last in multiset(a) && last in multiset(b);
      var k :| 0 <= k < |b| && b[k] == last;
      WithoutOne(a, n);
      WithoutOne(b, k);
      IdListPermuted(a[..n] + a[n + 1..], b[..k] + b[k + 1..]);
    }
  }

  lemma WithoutOne(a: seq<Observation>, k: nat)
    requires k < |a|
    ensures multiset(a[..k] + a[k + 1..]) == multiset(a) - multiset{a[k]}
    ensures IdList(a) == IdList(a[..k] + a[k + 1..]) + multiset{a[k].id}
  {
    hide IdList;
    var front, one, back := a[..k], [a[k]], a[k + 1..];
    assert a == front + one + back;
    MultisetWithout(front, a[k], back);
    IdListConcat(front, back);
    IdListConcat(front, one);
    IdListConcat(front + one, back);
    IdListOfOne(a[k]);
  }

  lemma MultisetWithout(front: seq<Observation>, o: Observation, back: seq<Observation>)
    ensures multiset(front + back) == multiset(front + [o] + back) - multiset{o}
  {
  }

  lemma IdListOfOne(o: Observation)
    ensures IdList([o]) == multiset{o.id}
  {
    assert [o][..0] == [];
  }

  lemma {:induction false} IdListConcat(a: seq<Observation>, b: seq<Observation>)
    ensures IdList(a + b) == IdList(a) + IdList(b)
  {
    if b == [] {
      assert a + b == a;
    } else {
      assert (a + b)[..|a + b| - 1] == a + b[..|b| - 1];
      IdListConcat(a, b[..|b| - 1]);
    }
  }

  lemma IdsAreUnique(a: multiset<Id>, b: multiset<Id>, m: multiset<Observation>)
    requires AreTheIds(a, m) && AreTheIds(b, m)
    ensures a == b
  {
    var x :| multiset(x) == m && a == IdList(x);
    var y :| multiset(y) == m && b == IdList(y);
    IdListPermuted(x, y);
  }

  lemma SelectionIsUnique(field: Field, os: set<Observation>, a: Selected, b: Selected)
    requires Describes(field, os, a) && Describes(field, os, b)
    ensures a == b
  {
    hide Top, ValuesOf, Saying;
    assert a.values == b.values;
  }

  /** The draft is determined by the observations: their order plays no part. */
  lemma DraftIsCanonical(m: multiset<Observation>, a: Built, b: Built)
    requires IsBuilt(m, a) && IsBuilt(m, b)
    ensures a == b
  {
    hide Describes, Superseded, Choices, Top, ValuesOf, CitesTwice, AreTheIds, IsEventType, FactStatusOf;
    if a.Good? && b.Good? {
      var os := Elements(m);
      forall f | f in a.draft.fields ensures a.draft.fields[f] == b.draft.fields[f] {
        SelectionIsUnique(f, os, a.draft.fields[f], b.draft.fields[f]);
      }
      assert a.draft.fields == b.draft.fields;
      assert a.draft.superseded == b.draft.superseded;
      assert a.draft.space in {b.draft.space};
      EventTypeIsUnique(a.draft.eventType, b.draft.eventType, Typed(a.draft.fields, os));
      IdsAreUnique(a.draft.ids, b.draft.ids, m);
    }
  }

  // ---- building it ----

  function Set(items: seq<Observation>): set<Observation> { set o | o in items }

  lemma SetIsElements(items: seq<Observation>)
    ensures Elements(multiset(items)) == Set(items)
  {
  }

  /** The inner loop over the observations, for one field. */
  method SelectField(field: Field, items: seq<Observation>) returns (choices: seq<Observation>, top: nat)
    ensures Set(choices) == Choices(field, Set(items))
    ensures forall o :: multiset(choices)[o] == if ValueOf(field, o).Some? then multiset(items)[o] else 0
    ensures choices != [] ==> (exists o :: o in choices && Priority(o) == top) && forall o :: o in choices ==> Priority(o) <= top
  {
    hide ValueOf;
    choices, top := [], 0;
    for i := 0 to |items|
      invariant forall o :: multiset(choices)[o] == if ValueOf(field, o).Some? then multiset(items[..i])[o] else 0
      invariant choices != [] ==> exists o :: o in choices && Priority(o) == top
      invariant forall o :: o in choices ==> Priority(o) <= top
    {
      var o := items[i];
      assert items[..i + 1] == items[..i] + [o];
      if ValueOf(field, o).Some? {
        if choices == [] || Priority(o) > top {
          top := Priority(o);
        }
        choices := choices + [o];
        assert o in choices;
      }
    }
    assert items[..|items|] == items;
    ChosenAre(field, items, choices);
  }

  lemma ChosenAre(field: Field, items: seq<Observation>, choices: seq<Observation>)
    requires forall o :: multiset(choices)[o] == if ValueOf(field, o).Some? then multiset(items)[o] else 0
    ensures Set(choices) == Choices(field, Set(items))
  {
    hide ValueOf;
    forall o ensures o in choices <==> o in items && ValueOf(field, o).Some? {
      assert o in choices <==> multiset(choices)[o] > 0;
      assert o in items <==> multiset(items)[o] > 0;
    }
  }

  /** The choices of the highest priority, in order. */
  method TopList(choices: seq<Observation>, top: nat) returns (list: seq<Observation>)
    ensures forall o :: multiset(list)[o] == if Priority(o) == top then multiset(choices)[o] else 0
  {
    list := [];
    for i := 0 to |choices|
      invariant forall o :: multiset(list)[o] == if Priority(o) == top then multiset(choices[..i])[o] else 0
    {
      assert choices[..i + 1] == choices[..i] + [choices[i]];
      if Priority(choices[i]) == top {
        list := list + [choices[i]];
      }
    }
    assert choices[..|choices|] == choices;
  }

  /** Whether a list of evidence would hold an id twice. */
  method RepeatsId(list: seq<Observation>) returns (twice: bool)
    ensures twice <==> SomeRepeat(list)
  {
    for j := 0 to |list|
      invariant forall i, k :: 0 <= i < k < j ==> list[i].id != list[k].id
    {
      for i := 0 to j
        invariant forall k :: 0 <= k < i ==> list[k].id != list[j].id
      {
        if list[i].id == list[j].id {
          return true;
        }
      }
    }
    twice := false;
  }

  ghost predicate SomeRepeat(list: seq<Observation>) {
    exists i, j :: 0 <= i < j < |list| && list[i].id == list[j].id
  }

  ghost predicate SomeTwice(list: seq<Observation>) {
    exists o, p :: o in list && p in list && o.id == p.id && (o != p || multiset(list)[o] > 1)
  }

  lemma RepeatsAre(list: seq<Observation>)
    ensures SomeRepeat(list) <==> SomeTwice(list)
  {
    if SomeRepeat(list) {
      var i, j :| 0 <= i < j < |list| && list[i].id == list[j].id;
      RepeatIsTwice(list, i, j);
    }
    if SomeTwice(list) {
      TwiceIsRepeat(list);
    }
  }

  lemma RepeatIsTwice(list: seq<Observation>, i: nat, j: nat)
    requires i < j < |list| && list[i].id == list[j].id
    ensures SomeTwice(list)
  {
    var o, p := list[i], list[j];
    assert o in list && p in list;
    if o == p {
      assert list == list[..j] + [p] + list[j + 1..];
      assert o == list[..j][i];
      assert multiset(list[..j])[o] > 0;
    }
  }

  lemma TwiceIsRepeat(list: seq<Observation>)
    requires SomeTwice(list)
    ensures SomeRepeat(list)
  {
    var o, p :| o in list && p in list && o.id == p.id && (o != p || multiset(list)[o] > 1);
    var i :| 0 <= i < |list| && list[i] == o;
    if o == p {
      OtherPosition(list, i);
    } else {
      var j :| 0 <= j < |list| && list[j] == p;
      assert i < j ==> list[i].id == list[j].id;
      assert j < i ==> list[j].id == list[i].id;
    }
  }

  lemma OtherPosition(list: seq<Observation>, i: nat)
    requires i < |list| && multiset(list)[list[i]] > 1
    ensures SomeRepeat(list)
  {
    assert list == list[..i] + [list[i]] + list[i + 1..];
    var rest := list[..i] + list[i + 1..];
    assert multiset(rest)[list[i]] > 0;
    assert list[i] in rest;
    var j :| 0 <= j < |rest| && rest[j] == list[i];
    if j < i {
      assert list[j].id == list[i].id;
    } else {
      assert list[i].id == list[j + 1].id;
    }
  }

  /** The values of some observations, with repetitions. */
  method ListValues(field: Field, best: set<Observation>) returns (values: multiset<Json>)
    requires forall o :: o in best ==> ValueOf(field, o).Some?
    ensures forall v :: values[v] == |Saying(field, best, v)|
  {
    hide ValueOf, Saying;
    values := multiset{};
    var todo := best;
    NobodySays(field);
    assert best - todo == {};
    while todo != {}
      invariant todo <= best
      invariant forall v :: values[v] == |Saying(field, best - todo, v)|
      decreases todo
    {
      var o :| o in todo;
      assert best - (todo - {o}) == (best - todo) + {o};
      SayingOneMore(field, best - todo, o);
      values := values + multiset{ValueOf(field, o).value};
      todo := todo - {o};
    }
    assert best - todo == best;
  }

  lemma NobodySays(field: Field)
    ensures forall v :: Saying(field, {}, v) == {}
  {
  }

  lemma SayingOneMore(field: Field, done: set<Observation>, o: Observation)
    requires o !in done
    ensures forall v :: |Saying(field, done + {o}, v)| == |Saying(field, done, v)| + (if ValueOf(field, o) == Some(v) then 1 else 0)
  {
    hide ValueOf, Saying;
    forall v ensures |Saying(field, done + {o}, v)| == |Saying(field, done, v)| + (if ValueOf(field, o) == Some(v) then 1 else 0) {
      SayingIt(field, done, o, v);
    }
  }

  lemma SayingIt(field: Field, done: set<Observation>, o: Observation, v: Json)
    requires o !in done
    ensures |Saying(field, done + {o}, v)| == |Saying(field, done, v)| + (if ValueOf(field, o) == Some(v) then 1 else 0)
  {
    hide ValueOf;
    var before, after := Saying(field, done, v), Saying(field, done + {o}, v);
    if ValueOf(field, o) == Some(v) {
      assert after == before + {o} && o !in before;
    } else {
      assert after == before;
    }
  }

  /** What is selected from the choices of a field, what they supersede, and whether they would cite an id twice. */
  method Select(field: Field, choices: seq<Observation>, top: nat, ghost m: multiset<Observation>)
    returns (s: Selected, superseded: set<Id>, twice: bool)
    requires choices != [] && Set(choices) == Choices(field, Elements(m))
    requires forall o :: multiset(choices)[o] == if ValueOf(field, o).Some? then m[o] else 0
    requires (exists o :: o in choices && Priority(o) == top) && forall o :: o in choices ==> Priority(o) <= top
    ensures Describes(field, Elements(m), s)
    ensures superseded == Superseded(field, Elements(m))
    ensures twice <==> CitedTwice(m, field)
  {
    hide Top, Choices, ValuesOf, Saying, ValueOf, CitedTwice, SomeRepeat, Describes;
    ghost var os := Elements(m);
    var best := set o | o in choices && Priority(o) == top;
    TopByRank(field, os, choices, top, best);
    BestCarry(field, os);
    superseded := Ids(Set(choices) - best);
    var list := TopList(choices, top);
    twice := RepeatsId(list);
    CitedTwiceInList(field, m, choices, list, top, best);
    var values, evidence := ValuesOf(field, best), Ids(best);
    var first, confidence := GreatestConfidence(choices, top);
    var listed := ListValues(field, best);
    s := if |values| > 1 then Selected(listed, evidence, confidence, Conflict)
         else Selected(multiset(values), evidence, confidence, Agreed(first.status));
    SelectionDescribes(field, os, first, confidence, listed);
  }

  lemma SelectionDescribes(field: Field, os: set<Observation>, first: Observation, confidence: real, listed: multiset<Json>)
    requires first in Top(field, os) && forall v :: listed[v] == |Saying(field, Top(field, os), v)|
    requires (exists o :: o in Top(field, os) && o.confidence == confidence) && forall o :: o in Top(field, os) ==> o.confidence <= confidence
    ensures var top := Top(field, os);
      Describes(field, os, if |ValuesOf(field, top)| > 1 then Selected(listed, Ids(top), confidence, Conflict)
                           else Selected(multiset(ValuesOf(field, top)), Ids(top), confidence, Agreed(first.status)))
  {
    forall o | o in Top(field, os) ensures o.status == first.status {
      TopAgreesOnStatus(field, os, o, first);
    }
    hide Top, ValuesOf, Saying;
  }

  lemma BestCarry(field: Field, os: set<Observation>)
    ensures forall o :: o in Top(field, os) ==> ValueOf(field, o).Some?
  {
  }

  lemma CitedTwiceInList(field: Field, m: multiset<Observation>, choices: seq<Observation>, list: seq<Observation>, top: nat,
                         best: set<Observation>)
    requires best == Top(field, Elements(m)) && best == set o | o in choices && Priority(o) == top
    requires forall o :: multiset(choices)[o] == if ValueOf(field, o).Some? then m[o] else 0
    requires forall o :: multiset(list)[o] == if Priority(o) == top then multiset(choices)[o] else 0
    ensures CitedTwice(m, field) <==> SomeRepeat(list)
  {
    RepeatsAre(list);
    hide Top, ValueOf, Priority, SomeRepeat;
    forall o ensures (o in list <==> o in best) && (o in best ==> multiset(list)[o] == m[o]) {
      assert o in list <==> multiset(list)[o] > 0;
      assert o in choices <==> multiset(choices)[o] > 0;
    }
    SameTwice(m, field, list, best);
  }

  lemma SameTwice(m: multiset<Observation>, field: Field, list: seq<Observation>, best: set<Observation>)
    requires best == Top(field, Elements(m))
    requires forall o :: (o in list <==> o in best) && (o in best ==> multiset(list)[o] == m[o])
    ensures CitedTwice(m, field) <==> SomeTwice(list)
  {
    hide Top;
  }

  /** The greatest confidence among the top choices, and a top choice. */
  method GreatestConfidence(choices: seq<Observation>, top: nat) returns (first: Observation, confidence: real)
    requires exists o :: o in choices && Priority(o) == top
    ensures first in choices && Priority(first) == top
    ensures exists o :: o in choices && Priority(o) == top && o.confidence == confidence
    ensures forall o :: o in choices && Priority(o) == top ==> o.confidence <= confidence
  {
    first :| first in choices && Priority(first) == top;
    confidence := first.confidence;
    for i := 0 to |choices|
      invariant exists o :: o in choices && Priority(o) == top && o.confidence == confidence
      invariant forall o :: o in choices[..i] && Priority(o) == top ==> o.confidence <= confidence
    {
      if Priority(choices[i]) == top && choices[i].confidence > confidence {
        confidence := choices[i].confidence;
        assert choices[i] in choices;
      }
    }
    assert choices[..|choices|] == choices;
  }

  lemma TopByRank(field: Field, os: set<Observation>, choices: seq<Observation>, top: nat, best: set<Observation>)
    requires choices != [] && Set(choices) == Choices(field, os)
    requires (exists o :: o in choices && Priority(o) == top) && forall o :: o in choices ==> Priority(o) <= top
    requires best == set o | o in choices && Priority(o) == top
    ensures best == Top(field, os)
  {
    var w :| w in choices && Priority(w) == top;
    forall o ensures o in choices <==> o in Choices(field, os) {
      assert o in choices <==> o in Set(choices);
    }
    assert w in Choices(field, os);
  }

  /** The fields selected so far, and everything they supersede. */
  ghost predicate SelectedSoFar(os: set<Observation>, done: set<Field>, fields: map<Field, Selected>, superseded: set<Id>)
  {
    && (forall f :: f in fields <==> f in done && Choices(f, os) != {})
    && (forall f :: f in fields ==> Describes(f, os, fields[f]))
    && (forall id :: id in superseded <==> exists f :: f in done && id in Superseded(f, os))
  }

  lemma SelectOneMore(os: set<Observation>, done: set<Field>, fields: map<Field, Selected>, superseded: set<Id>,
                      f: Field, s: Option<Selected>, lost: set<Id>)
    requires SelectedSoFar(os, done, fields, superseded) && f !in done && lost == Superseded(f, os)
    requires if Choices(f, os) == {} then s == None else s.Some? && Describes(f, os, s.value)
    ensures SelectedSoFar(os, done + {f}, if s.Some? then fields[f := s.value] else fields, superseded + lost)
  {
    hide Choices, Describes, Superseded;
  }

  /** The loop over the fields, in order. */
  method SelectFields(items: seq<Observation>) returns (fields: map<Field, Selected>, superseded: set<Id>, twice: bool)
    ensures SelectedSoFar(Set(items), ALL_FIELDS, fields, superseded)
    ensures twice <==> CitesTwice(multiset(items))
  {
    hide SelectedSoFar, Describes, Superseded, Choices, CitedTwice, ValueOf;
    ghost var m := multiset(items);
    ghost var os := Set(items);
    SetIsElements(items);
    fields, superseded, twice := map[], {}, false;
    var order := [Time, Place, People, Action, Outcome, Intent, Description, Emotion, Relationship];
    ghost var done: set<Field> := {};
    assert SelectedSoFar(os, done, fields, superseded) by { NothingSelected(os); }
    for i := 0 to |order|
      invariant forall f :: f in done <==> f in order[..i]
      invariant SelectedSoFar(os, done, fields, superseded)
      invariant twice <==> exists f :: f in done && CitedTwice(m, f)
    {
      assert order[..i + 1] == order[..i] + [order[i]];
      var choices, top := SelectField(order[i], items);
      NonEmpty(choices);
      if choices != [] {
        var selected, lost, again := Select(order[i], choices, top, m);
        SelectOneMore(os, done, fields, superseded, order[i], Some(selected), lost);
        fields, superseded, twice := fields[order[i] := selected], superseded + lost, twice || again;
      } else {
        NothingSuperseded(order[i], os);
        NothingCited(order[i], m);
        SelectOneMore(os, done, fields, superseded, order[i], None, {});
        assert superseded + {} == superseded;
      }
      done := done + {order[i]};
    }
    assert order[..|order|] == order;
    EveryField(order);
    assert done == ALL_FIELDS;
  }

  lemma NothingCited(field: Field, m: multiset<Observation>)
    requires Choices(field, Elements(m)) == {}
    ensures !CitedTwice(m, field)
  {
  }

  lemma EveryField(order: seq<Field>)
    requires order == [Time, Place, People, Action, Outcome, Intent, Description, Emotion, Relationship]
    ensures forall f :: f in order <==> f in ALL_FIELDS
  {
    forall f ensures f in order {
      match f
      case Time => assert order[0] == f;
      case Place => assert order[1] == f;
      case People => assert order[2] == f;
      case Action => assert order[3] == f;
      case Outcome => assert order[4] == f;
      case Intent => assert order[5] == f;
      case Description => assert order[6] == f;
      case Emotion => assert order[7] == f;
      case Relationship => assert order[8] == f;
    }
  }

  lemma NothingSelected(os: set<Observation>)
    ensures SelectedSoFar(os, {}, map[], {})
  {
  }

  lemma NonEmpty(items: seq<Observation>)
    ensures items == [] <==> Set(items) == {}
  {
    if items != [] {
      assert items[0] in Set(items);
    }
  }

  method SpaceOf(items: seq<Observation>) returns (space: Option<string>)
    requires items != []
    ensures space == None <==> |Spaces(Set(items))| != 1
    ensures space.Some? ==> Spaces(Set(items)) == {space.value}
  {
    var first := items[0].space;
    assert items[0] in Set(items);
    for i := 0 to |items|
      invariant forall o :: o in items[..i] ==> o.space == first
    {
      if items[i].space != first {
        SpacesDiffer(items, i);
        return None;
      }
      assert items[..i + 1] == items[..i] + [items[i]];
    }
    assert items[..|items|] == items;
    assert Spaces(Set(items)) == {first};
    space := Some(first);
  }

  /** The type of the highest-ranked observation cited for a fact that has one. */
  method ChooseEventType(fields: map<Field, Selected>, items: seq<Observation>) returns (t: EventType)
    ensures IsEventType(t, Typed(fields, Set(items)))
  {
    var ids := FactIds(fields);
    var best: Option<Observation> := None;
    hide FactIds;
    for i := 0 to |items|
      invariant best.None? ==> forall o :: o in items[..i] ==> !(o.id in ids && o.eventType.Some?)
      invariant best.Some? ==> best.value in items && best.value.id in ids && best.value.eventType.Some?
      invariant best.Some? ==> forall o :: o in items[..i] && o.id in ids && o.eventType.Some? ==> TypedBelow(o, best.value)
    {
      var o := items[i];
      assert items[..i + 1] == items[..i] + [o];
      if o.id in ids && o.eventType.Some? && (best.None? || TypedBelow(best.value, o)) {
        best := Some(o);
      }
    }
    assert items[..|items|] == items;
    if best.None? {
      assert Typed(fields, Set(items)) == {};
      return ACTIVITY;
    }
    assert best.value in Typed(fields, Set(items));
    t := best.value.eventType.value;
  }

  method LastCreated(items: seq<Observation>) returns (created: int)
    requires items != []
    ensures (exists o :: o in Set(items) && o.created == created) && (forall o :: o in Set(items) ==> o.created <= created)
  {
    created := items[0].created;
    assert items[0] in Set(items);
    for i := 0 to |items|
      invariant exists o :: o in Set(items) && o.created == created
      invariant forall o :: o in items[..i] ==> o.created <= created
    {
      assert items[..i + 1] == items[..i] + [items[i]];
      if items[i].created > created {
        created := items[i].created;
        assert items[i] in Set(items);
      }
    }
    assert items[..|items|] == items;
  }

  /** build_event_draft. */
  method BuildEventDraft(items: seq<Observation>) returns (built: Built)
    ensures IsBuilt(multiset(items), built)
  {
    hide Describes, Superseded, Choices, Top, ValuesOf, CitesTwice, IsEventType, Typed, IdList;
    SetIsElements(items);
    NonEmpty(items);
    if items == [] {
      return Bad(DataInsufficient);
    }
    var space := SpaceOf(items);
    if space == None {
      return Bad(SpaceDenied);
    }
    var fields, superseded, twice := SelectFields(items);
    if forall f :: f in FACT_FIELDS ==> f !in fields {
      return Bad(DataInsufficient);
    }
    TimeConflict(Set(items), fields);
    if (Time in fields && fields[Time].status == Conflict) || twice {
      return Bad(SchemaMismatch);
    }
    var eventType := ChooseEventType(fields, items);
    var created := LastCreated(items);
    var ids := IdList(items);
    assert AreTheIds(ids, multiset(items));
    built := Good(Draft(space.value, fields, FactStatusOf(fields), superseded, eventType, created, ids));
  }

  lemma NothingSuperseded(field: Field, os: set<Observation>)
    requires Choices(field, os) == {}
    ensures Superseded(field, os) == {}
  {
  }

  lemma TimeConflict(os: set<Observation>, fields: map<Field, Selected>)
    requires Time in fields <==> Choices(Time, os) != {}
    requires Time in fields ==> Describes(Time, os, fields[Time])
    ensures Time in fields && fields[Time].status == Conflict <==> |ValuesOf(Time, Top(Time, os))| > 1
  {
    if Choices(Time, os) == {} {
      assert ValuesOf(Time, Top(Time, os)) == {};
    }
  }

  lemma SpacesDiffer(items: seq<Observation>, i: nat)
    requires i < |items| && items[i].space != items[0].space
    ensures |Spaces(Set(items))| != 1
  {
    var os := Set(items);
    assert items[0] in os && items[i] in os;
    if |Spaces(os)| == 1 {
      OneElement(Spaces(os), items[0].space, items[i].space);
    }
  }

  lemma OneElement<T>(s: set<T>, a: T, b: T)
    requires |s| == 1 && a in s && b in s
    ensures a == b
  {
    assert |s - {a}| == 0;
    assert b !in s - {a};
  }

  /** Permuted observations give the same draft: the same fields, event type, creation time and candidate id. */
  lemma PermutedItemsAgree(items: seq<Observation>, permuted: seq<Observation>, a: Built, b: Built)
    requires multiset(items) == multiset(permuted) && IsBuilt(multiset(items), a) && IsBuilt(multiset(permuted), b)
    ensures a == b
  {
    hide IsBuilt;
    DraftIsCanonical(multiset(items), a, b);
  }

  /** With distinct ids nothing is cited twice. */
  lemma DistinctCitesOnce(items: seq<Observation>)
    requires forall i, j :: 0 <= i < j < |items| ==> items[i].id != items[j].id
    ensures Distinct(Set(items)) && !CitesTwice(multiset(items))
  {
    RepeatsAre(items);
    SetIsElements(items);
    hide CitesTwice;
    if CitesTwice(multiset(items)) {
      TwiceMeans(items);
    }
  }

  lemma TwiceMeans(items: seq<Observation>)
    requires CitesTwice(multiset(items))
    ensures exists o, p :: o in items && p in items && o.id == p.id && (o != p || multiset(items)[o] > 1)
  {
    var m := multiset(items);
    var f :| f in ALL_FIELDS && CitedTwice(m, f);
    var o, p :| o in Top(f, Elements(m)) && p in Top(f, Elements(m)) && o.id == p.id && (o != p || m[o] > 1);
    assert o in m && p in m;
  }

  // ---- the checker ----

  /** One entry of field evidence, checked against the observations: references, space, support, confidence, and in
      provider mode values and status. */
  ghost predicate EntryPasses(space: string, field: Field, s: Selected, os: set<Observation>) {
    var cited := set o | o in os && o.id in s.evidence;
    && s.evidence != {} && s.evidence <= Ids(os)
    && (forall o :: o in cited ==> o.space == space)
    && (forall o :: o in cited ==> ValueOf(field, o).Some?)
    && (exists o :: o in cited && s.confidence <= o.confidence)
    && (if s.status == Conflict then |ValuesOf(field, cited)| > 1
        else |ValuesOf(field, cited)| <= 1 && s.status.status in (set o | o in cited :: o.status))
  }

  /** validate_event_candidate, apart from the shape of the candidate: some factual field, every entry in order, and the
      candidate in conflict exactly when a factual entry is. */
  ghost predicate Passes(d: Draft, os: set<Observation>) {
    && d.space in Spaces(os)
    && (exists f :: f in d.fields && f in FACT_FIELDS)
    && (forall f :: f in d.fields ==> EntryPasses(d.space, f, d.fields[f], os))
    && (d.fact == ConflictFact <==> exists f :: f in d.fields && f in FACT_FIELDS && d.fields[f].status == Conflict)
  }

  /** With distinct ids, citing the top choices cites nothing else. */
  lemma CitedAreTop(field: Field, os: set<Observation>)
    requires Distinct(os)
    ensures (set o | o in os && o.id in Ids(Top(field, os))) == Top(field, os)
  {
    forall o | o in os && o.id in Ids(Top(field, os)) ensures o in Top(field, os) {
      var t :| t in Top(field, os) && t.id == o.id;
      assert t in os;
    }
  }

  lemma EntryIsAccepted(space: string, field: Field, s: Selected, os: set<Observation>)
    requires Distinct(os) && Spaces(os) == {space} && Choices(field, os) != {} && Describes(field, os, s)
    ensures EntryPasses(space, field, s, os)
  {
    var top := Top(field, os);
    TopExists(field, os);
    CitedAreTop(field, os);
    var o :| o in top && o.confidence == s.confidence;
    assert o.id in s.evidence;
    forall x | x in top ensures x.space == space && x.id in Ids(os) {
      assert x in os && x.space in Spaces(os);
    }
    if s.status.Agreed? {
      assert s.status.status == o.status;
    }
  }

  /** Every draft that is built passes the checker, in the mode for provider output too. */
  lemma DraftIsSelfConsistent(m: multiset<Observation>, built: Built)
    requires IsBuilt(m, built) && built.Good? && Distinct(Elements(m))
    ensures Passes(built.draft, Elements(m))
  {
    hide EntryPasses, Describes, Choices, Superseded, ValuesOf, Top, CitesTwice, IsEventType, Typed, AreTheIds;
    var os := Elements(m);
    var d := built.draft;
    assert d.space in Spaces(os);
    forall f | f in d.fields ensures EntryPasses(d.space, f, d.fields[f], os) {
      EntryIsAccepted(d.space, f, d.fields[f], os);
    }
    var f :| f in FACT_FIELDS && Choices(f, os) != {};
    assert f in d.fields;
    assert Conflict in FactStatuses(d.fields) <==> exists g :: g in d.fields && g in FACT_FIELDS && d.fields[g].status == Conflict;
  }

  /** Each field cites exactly the highest-priority observations that carry it. */
  lemma FieldsCiteTheHighest(m: multiset<Observation>, built: Built, f: Field, o: Observation)
    requires IsBuilt(m, built) && built.Good? && Distinct(Elements(m)) && f in built.draft.fields && o in m
    ensures o.id in built.draft.fields[f].evidence <==>
      ValueOf(f, o).Some? && forall other :: other in m && ValueOf(f, other).Some? ==> Priority(other) <= Priority(o)
  {
    hide IsBuilt, Top, Choices, Elements;
    var os := Elements(m);
    FieldCitesTop(m, built, f);
    CitedAreTop(f, os);
    InElements(m);
    assert o in Top(f, os) <==> o.id in Ids(Top(f, os));
    TopMeans(f, os, o);
  }

  lemma FieldCitesTop(m: multiset<Observation>, built: Built, f: Field)
    requires IsBuilt(m, built) && built.Good? && f in built.draft.fields
    ensures built.draft.fields[f].evidence == Ids(Top(f, Elements(m)))
  {
    hide Choices, Superseded, ValuesOf, Top, CitesTwice, IsEventType, Typed, AreTheIds, ValueOf;
  }

  lemma InElements(m: multiset<Observation>)
    ensures forall o :: o in Elements(m) <==> o in m
  {
  }

  lemma TopMeans(f: Field, os: set<Observation>, o: Observation)
    ensures o in Top(f, os) <==>
      o in os && ValueOf(f, o).Some? && forall other :: other in os && ValueOf(f, other).Some? ==> Priority(other) <= Priority(o)
  {
  }

  /** The event type of a draft is that of an observation cited for a fact, whenever one of them has a known type; that is
      the provider mode's own test. */
  lemma EventTypeIsSupported(m: multiset<Observation>, built: Built)
    requires IsBuilt(m, built) && built.Good?
    ensures var typed := Typed(built.draft.fields, Elements(m));
      (exists o :: o in typed && o.eventType == Some(built.draft.eventType)) <==> typed != {}
  {
    hide Describes, Superseded, Choices, Top, ValuesOf, CitesTwice, AreTheIds;
  }

  /** A field is a conflict exactly when those observations disagree. */
  lemma ConflictsAreDisagreements(os: set<Observation>, f: Field, s: Selected)
    requires Choices(f, os) != {} && Describes(f, os, s)
    ensures s.status == Conflict <==> exists a, b :: a in Top(f, os) && b in Top(f, os) && ValueOf(f, a) != ValueOf(f, b)
  {
    var values := ValuesOf(f, Top(f, os));
    assert forall o :: o in Top(f, os) ==> ValueOf(f, o).Some? && ValueOf(f, o).value in values;
    assert s.status == Conflict <==> |values| > 1;
    assert forall v :: v in values ==> exists o :: o in Top(f, os) && ValueOf(f, o) == Some(v);
    hide Top, ValuesOf, ValueOf, Choices, Describes;
    SeveralIffDifferent(values);
  }

  lemma SeveralIffDifferent(values: set<Json>)
    ensures |values| > 1 <==> exists x, y :: x in values && y in values && x != y
  {
    if x, y :| x in values && y in values && x != y {
      if |values| == 1 {
        OneElement(values, x, y);
      }
    }
    if |values| > 1 {
      var x :| x in values;
      assert |values - {x}| > 0;
      var y :| y in values - {x};
      assert x in values && y in values && x != y;
    }
  }
}
