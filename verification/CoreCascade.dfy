/** Deleting sources one after another: what becomes of one event, in whatever order they go. */
module CoreCascade {
  import opened Json
  import opened CoreModel

  // ---- evidence under several deletions ----

  /** The observations that come from none of the sources. */
  function Outside(seen: Observations, sources: set<Id>, observations: set<Id>): set<Id> {
    set o | o in observations && o in seen && seen[o].source !in sources
  }

  /** One entry after the sources are gone, when the first deletion that touched the event took the source `first`: the
      observations and the status are those left at the end, the confidence is the one set by that first deletion. */
  function FinalEntry(seen: Observations, first: Id, sources: set<Id>, ev: Evidence): Evidence {
    var left := Outside(seen, sources, ev.observations);
    Evidence(ev.field, left, LeastConfidence(seen, ev.confidence, Outside(seen, {first}, ev.observations)),
             StatusOf(StatusesOf(seen, left)))
  }

  function FinalEvidence(seen: Observations, first: Id, sources: set<Id>, evidence: seq<Evidence>): seq<Evidence> {
    if evidence == [] then []
    else
      var entry := FinalEntry(seen, first, sources, evidence[0]);
      (if entry.observations == {} then [] else [entry]) + FinalEvidence(seen, first, sources, evidence[1..])
  }

  ghost predicate IsLeast(seen: Observations, c: real, observations: set<Id>, r: real) {
    && r <= c && (forall o :: o in observations && o in seen ==> r <= seen[o].confidence)
    && (r == c || exists o :: o in observations && o in seen && r == seen[o].confidence)
  }

  lemma LeastIsUnique(seen: Observations, c: real, observations: set<Id>, r: real)
    requires IsLeast(seen, c, observations, r)
    ensures r == LeastConfidence(seen, c, observations)
  {
  }

  /** Taking the least again over fewer observations changes nothing. */
  lemma LeastOfFewer(seen: Observations, c: real, many: set<Id>, few: set<Id>)
    requires few <= many
    ensures LeastConfidence(seen, LeastConfidence(seen, c, many), few) == LeastConfidence(seen, c, many)
  {
    var r := LeastConfidence(seen, c, many);
    assert IsLeast(seen, r, few, r);
    LeastIsUnique(seen, r, few, r);
  }

  lemma EntryStep(seen: Observations, first: Id, sources: set<Id>, source: Id, ev: Evidence)
    requires first in sources
    ensures Stripped(seen, source, FinalEntry(seen, first, sources, ev)) == FinalEntry(seen, first, sources + {source}, ev)
  {
    var many := Outside(seen, {first}, ev.observations);
    var few := Outside(seen, sources + {source}, ev.observations);
    assert Surviving(seen, source, Outside(seen, sources, ev.observations)) == few;
    LeastOfFewer(seen, ev.confidence, many, few);
  }

  lemma EntryFirst(seen: Observations, source: Id, ev: Evidence)
    ensures Stripped(seen, source, ev) == FinalEntry(seen, source, {source}, ev)
  {
    assert Surviving(seen, source, ev.observations) == Outside(seen, {source}, ev.observations);
  }

  lemma {:induction false} EvidenceFirst(seen: Observations, source: Id, evidence: seq<Evidence>)
    ensures EvidenceAfter(seen, source, evidence) == FinalEvidence(seen, source, {source}, evidence)
  {
    if evidence != [] {
      EntryFirst(seen, source, evidence[0]);
      EvidenceFirst(seen, source, evidence[1..]);
    }
  }

  lemma {:induction false} AfterConcat(seen: Observations, source: Id, a: seq<Evidence>, b: seq<Evidence>)
    ensures EvidenceAfter(seen, source, a + b) == EvidenceAfter(seen, source, a) + EvidenceAfter(seen, source, b)
  {
    if a == [] {
      assert a + b == b;
    } else {
      assert (a + b)[1..] == a[1..] + b;
      AfterConcat(seen, source, a[1..], b);
    }
  }

  /** One more source goes. */
  lemma {:induction false} EvidenceStep(seen: Observations, first: Id, sources: set<Id>, source: Id, evidence: seq<Evidence>)
    requires first in sources
    ensures EvidenceAfter(seen, source, FinalEvidence(seen, first, sources, evidence)) ==
            FinalEvidence(seen, first, sources + {source}, evidence)
  {
    if evidence != [] {
      var entry := FinalEntry(seen, first, sources, evidence[0]);
      var head := if entry.observations == {} then [] else [entry];
      var rest := FinalEvidence(seen, first, sources, evidence[1..]);
      EntryStep(seen, first, sources, source, evidence[0]);
      EvidenceStep(seen, first, sources, source, evidence[1..]);
      AfterConcat(seen, source, head, rest);
      assert EvidenceAfter(seen, source, head) ==
             if Stripped(seen, source, entry).observations == {} then [] else [Stripped(seen, source, entry)];
    }
  }

  /** What is left is what the other sources gave. */
  lemma {:induction false} FinalSources(seen: Observations, first: Id, sources: set<Id>, evidence: seq<Evidence>)
    ensures SourcesOf(seen, FinalEvidence(seen, first, sources, evidence)) == SourcesOf(seen, evidence) - sources
    ensures FinalEvidence(seen, first, sources, evidence) == [] <==> SourcesOf(seen, evidence) <= sources
  {
    if evidence != [] {
      var head, rest := FinalHead(seen, first, sources, evidence[0]), FinalEvidence(seen, first, sources, evidence[1..]);
      assert FinalEvidence(seen, first, sources, evidence) == head + rest;
      assert evidence == [evidence[0]] + evidence[1..];
      FinalSources(seen, first, sources, evidence[1..]);
      hide SourcesOf, FinalEvidence, FinalHead;
      FinalSourcesOfOne(seen, first, sources, evidence[0]);
      SourcesConcat(seen, [evidence[0]], evidence[1..]);
      SourcesConcat(seen, head, rest);
    }
  }

  function FinalHead(seen: Observations, first: Id, sources: set<Id>, ev: Evidence): seq<Evidence> {
    var entry := FinalEntry(seen, first, sources, ev);
    if entry.observations == {} then [] else [entry]
  }

  lemma FinalSourcesOfOne(seen: Observations, first: Id, sources: set<Id>, ev: Evidence)
    ensures var head := FinalHead(seen, first, sources, ev);
      && SourcesOf(seen, head) == SourcesOf(seen, [ev]) - sources && (head == [] <==> SourcesOf(seen, [ev]) <= sources)
  {
    var entry := FinalEntry(seen, first, sources, ev);
    SourcesOfOne(seen, ev);
    SourcesOfOne(seen, entry);
    EntrySources(seen, first, sources, ev);
    assert SourcesOf(seen, []) == {};
    hide SourcesOf, EntrySourcesOf, FinalEntry;
  }

  lemma SourcesConcat(seen: Observations, a: seq<Evidence>, b: seq<Evidence>)
    ensures SourcesOf(seen, a + b) == SourcesOf(seen, a) + SourcesOf(seen, b)
  {
    assert ObservationsIn(a + b) == ObservationsIn(a) + ObservationsIn(b);
  }

  function EntrySourcesOf(seen: Observations, ev: Evidence): set<Id> {
    set o | o in ev.observations && o in seen :: seen[o].source
  }

  lemma SourcesOfOne(seen: Observations, ev: Evidence)
    ensures SourcesOf(seen, [ev]) == EntrySourcesOf(seen, ev)
  {
    assert ObservationsIn([ev]) == ev.observations by {
      assert ev in [ev];
    }
  }

  lemma EntrySources(seen: Observations, first: Id, sources: set<Id>, ev: Evidence)
    ensures EntrySourcesOf(seen, FinalEntry(seen, first, sources, ev)) == EntrySourcesOf(seen, ev) - sources
    ensures FinalEntry(seen, first, sources, ev).observations == {} <==> EntrySourcesOf(seen, ev) <= sources
  {
    var left := Outside(seen, sources, ev.observations);
    forall s | s in EntrySourcesOf(seen, ev) - sources ensures s in EntrySourcesOf(seen, FinalEntry(seen, first, sources, ev)) {
      var o :| o in ev.observations && o in seen && seen[o].source == s;
      assert o in left;
    }
    forall o | o in left ensures seen[o].source in EntrySourcesOf(seen, ev) - sources {}
  }

  // ---- one event ----

  datatype Removal = Removal(source: Id, now: int)

  /** What deleting a source does to an event: nothing unless it is live and cites the source. */
  function RemoveFrom(seen: Observations, removal: Removal, e: Event): Event {
    if e.Live() && Cites(seen, e, removal.source) then Recomputed(seen, removal.source, e, removal.now) else e
  }

  function RemoveAllFrom(seen: Observations, removals: seq<Removal>, e: Event): Event {
    if removals == [] then e
    else RemoveFrom(seen, removals[|removals| - 1], RemoveAllFrom(seen, removals[..|removals| - 1], e))
  }

  function SourcesIn(removals: seq<Removal>): set<Id> {
    set r | r in removals :: r.source
  }

  /** The first of the removals that takes a source the event cites. */
  function FirstTouch(seen: Observations, removals: seq<Removal>, e: Event): Option<Id> {
    if removals == [] then None
    else
      var n := |removals| - 1;
      match FirstTouch(seen, removals[..n], e)
      case Some(first) => Some(first)
      case None => if Cites(seen, e, removals[n].source) then Some(removals[n].source) else None
  }

  lemma {:induction false} FirstTouchIsCited(seen: Observations, removals: seq<Removal>, e: Event)
    ensures match FirstTouch(seen, removals, e)
      case Some(first) => first in SourcesIn(removals) && Cites(seen, e, first)
      case None => SourcesOf(seen, e.evidence) !! SourcesIn(removals)
  {
    if removals != [] {
      var n := |removals| - 1;
      FirstTouchIsCited(seen, removals[..n], e);
      assert removals == removals[..n] + [removals[n]];
      assert SourcesIn(removals) == SourcesIn(removals[..n]) + {removals[n].source};
    }
  }

  /** An event that no deletion has put in conflict or emptied yet. */
  predicate Deletable(seen: Observations, e: Event) {
    e.Live() && e.fact != ConflictFact && e.evidence != [] &&
    forall ev :: ev in e.evidence ==> exists o :: o in ev.observations && o in seen
  }

  /** The event as it stands when some of its sources are gone and others are left. */
  predicate IsRecomputed(seen: Observations, first: Id, sources: set<Id>, e: Event, after: Event) {
    var evidence := FinalEvidence(seen, first, sources, e.evidence);
    && after.state == Active && after.evidence == evidence && after.sources == SourcesOf(seen, evidence)
    && after.fact == FactFromEvidence(evidence) && after.fact != ConflictFact
    && after.title == LabelOf(e.eventType) && after.description == RecomputedFrom(set ev | ev in evidence :: ev.field)
    && after.eventType == e.eventType && after.id == e.id && after.Key() == e.Key()
    && after.revision == e.revision + |SourcesOf(seen, e.evidence) * sources|
  }

  lemma {:induction false} FinalNeverDisputed(seen: Observations, first: Id, sources: set<Id>, evidence: seq<Evidence>)
    ensures Disputed !in FieldStatuses(FinalEvidence(seen, first, sources, evidence))
  {
    if evidence != [] {
      FinalNeverDisputed(seen, first, sources, evidence[1..]);
    }
  }

  /** A source that nothing left cites makes no difference. */
  lemma {:induction false} FinalIrrelevant(seen: Observations, first: Id, gone: set<Id>, source: Id, evidence: seq<Evidence>)
    requires source !in SourcesOf(seen, evidence) - gone
    ensures FinalEvidence(seen, first, gone + {source}, evidence) == FinalEvidence(seen, first, gone, evidence)
  {
    if evidence != [] {
      assert [evidence[0]] + evidence[1..] == evidence;
      SourcesConcat(seen, [evidence[0]], evidence[1..]);
      SourcesOfOne(seen, evidence[0]);
      FinalIrrelevant(seen, first, gone, source, evidence[1..]);
      forall o | o in Outside(seen, gone, evidence[0].observations) ensures seen[o].source != source {
        assert seen[o].source in EntrySourcesOf(seen, evidence[0]);
      }
      assert Outside(seen, gone + {source}, evidence[0].observations) == Outside(seen, gone, evidence[0].observations);
    }
  }

  /** The recomputed revision of an event that keeps evidence. */
  lemma RecomputedWhenLeft(seen: Observations, source: Id, e: Event, now: int)
    requires EvidenceAfter(seen, source, e.evidence) != []
    ensures var after, remaining := Recomputed(seen, source, e, now), EvidenceAfter(seen, source, e.evidence);
      && after.evidence == remaining && after.sources == SourcesOf(seen, remaining) && after.fact == FactFromEvidence(remaining)
      && after.title == LabelOf(e.eventType) && after.description == RecomputedFrom(set ev | ev in remaining :: ev.field)
      && after.eventType == e.eventType && after.id == e.id && after.Key() == e.Key() && after.revision == e.revision + 1
      && (after.fact != ConflictFact ==> after.state == Active)
  {
  }

  lemma FactNeverConflict(seen: Observations, first: Id, sources: set<Id>, evidence: seq<Evidence>)
    ensures FactFromEvidence(FinalEvidence(seen, first, sources, evidence)) != ConflictFact
  {
    FinalNeverDisputed(seen, first, sources, evidence);
  }

  lemma WipedIsDeleted(seen: Observations, source: Id, e: Event, now: int)
    requires EvidenceAfter(seen, source, e.evidence) == [] && e.fact != ConflictFact
    ensures Recomputed(seen, source, e, now).state == Deleted
  {
  }

  /** The first removal that touches an event. */
  lemma FirstRemoval(seen: Observations, removal: Removal, e: Event)
    requires Deletable(seen, e) && Cites(seen, e, removal.source)
    ensures var after := RemoveFrom(seen, removal, e);
      if SourcesOf(seen, e.evidence) <= {removal.source} then after.state == Deleted
      else IsRecomputed(seen, removal.source, {removal.source}, e, after)
  {
    var s := removal.source;
    EvidenceFirst(seen, s, e.evidence);
    FinalSources(seen, s, {s}, e.evidence);
    FactNeverConflict(seen, s, {s}, e.evidence);
    assert SourcesOf(seen, e.evidence) * {s} == {s};
    hide FinalEvidence, EvidenceAfter, SourcesOf, Recomputed, FactFromEvidence;
    if SourcesOf(seen, e.evidence) <= {s} {
      WipedIsDeleted(seen, s, e, removal.now);
    } else {
      RecomputedWhenLeft(seen, s, e, removal.now);
    }
  }

  /** A later removal of a source that is not left in the evidence. */
  lemma NextRemovalUncited(seen: Observations, first: Id, gone: set<Id>, removal: Removal, e: Event, before: Event)
    requires first in gone && IsRecomputed(seen, first, gone, e, before)
    requires removal.source !in SourcesOf(seen, e.evidence) - gone
    ensures RemoveFrom(seen, removal, before) == before
    ensures IsRecomputed(seen, first, gone + {removal.source}, e, before)
  {
    FinalSources(seen, first, gone, e.evidence);
    FinalIrrelevant(seen, first, gone, removal.source, e.evidence);
    assert SourcesOf(seen, e.evidence) * (gone + {removal.source}) == SourcesOf(seen, e.evidence) * gone;
    hide FinalEvidence, SourcesOf, Recomputed, FactFromEvidence;
  }

  /** A later removal of a source that is left, with no other. */
  lemma LastRemoval(seen: Observations, first: Id, gone: set<Id>, removal: Removal, e: Event, before: Event)
    requires first in gone && IsRecomputed(seen, first, gone, e, before)
    requires removal.source in SourcesOf(seen, e.evidence) - gone && SourcesOf(seen, e.evidence) <= gone + {removal.source}
    ensures RemoveFrom(seen, removal, before).state == Deleted
  {
    FinalSources(seen, first, gone, e.evidence);
    FinalSources(seen, first, gone + {removal.source}, e.evidence);
    EvidenceStep(seen, first, gone, removal.source, e.evidence);
    hide FinalEvidence, SourcesOf, Recomputed, FactFromEvidence, EvidenceAfter;
    WipedIsDeleted(seen, removal.source, before, removal.now);
  }

  /** A later removal of a source that is left with others. */
  lemma NextRemovalCited(seen: Observations, first: Id, gone: set<Id>, removal: Removal, e: Event, before: Event)
    requires first in gone && IsRecomputed(seen, first, gone, e, before)
    requires removal.source in SourcesOf(seen, e.evidence) - gone && !(SourcesOf(seen, e.evidence) <= gone + {removal.source})
    ensures IsRecomputed(seen, first, gone + {removal.source}, e, RemoveFrom(seen, removal, before))
  {
    var s := removal.source;
    assert RemoveFrom(seen, removal, before) == Recomputed(seen, s, before, removal.now) by {
      hide Recomputed, FinalEvidence, SourcesOf, FactFromEvidence;
      FinalSources(seen, first, gone, e.evidence);
    }
    assert EvidenceAfter(seen, s, before.evidence) != [] by {
      hide FinalEvidence, SourcesOf, Recomputed, FactFromEvidence, EvidenceAfter;
      FinalSources(seen, first, gone + {s}, e.evidence);
      EvidenceStep(seen, first, gone, s, e.evidence);
    }
    assert SourcesOf(seen, e.evidence) * (gone + {s}) == SourcesOf(seen, e.evidence) * gone + {s};
    hide FinalEvidence, SourcesOf, Recomputed, FactFromEvidence, EvidenceAfter, RemoveFrom;
    EvidenceStep(seen, first, gone, s, e.evidence);
    FactNeverConflict(seen, first, gone + {s}, e.evidence);
    RecomputedWhenLeft(seen, s, before, removal.now);
  }

  /** A later removal, while other sources are left. */
  lemma NextRemoval(seen: Observations, first: Id, gone: set<Id>, removal: Removal, e: Event, before: Event)
    requires first in gone && IsRecomputed(seen, first, gone, e, before) && !(SourcesOf(seen, e.evidence) <= gone)
    ensures var after := RemoveFrom(seen, removal, before);
      if SourcesOf(seen, e.evidence) <= gone + {removal.source} then after.state == Deleted
      else IsRecomputed(seen, first, gone + {removal.source}, e, after)
  {
    hide SourcesOf, IsRecomputed, RemoveFrom;
    if removal.source !in SourcesOf(seen, e.evidence) - gone {
      NextRemovalUncited(seen, first, gone, removal, e, before);
    } else if SourcesOf(seen, e.evidence) <= gone + {removal.source} {
      LastRemoval(seen, first, gone, removal, e, before);
    } else {
      NextRemovalCited(seen, first, gone, removal, e, before);
    }
  }

  /** What becomes of an event when a list of sources is deleted, in that order. Untouched, it is unchanged. Left
      without any of its sources, it is deleted. Otherwise it is live: each field keeps exactly the observations of the
      other sources, and the rest is recomputed from them; only the confidences remember which source went first. */
  lemma {:induction false} Cascade(seen: Observations, removals: seq<Removal>, e: Event)
    requires Deletable(seen, e)
    ensures match FirstTouch(seen, removals, e)
      case None => RemoveAllFrom(seen, removals, e) == e
      case Some(first) =>
        if SourcesOf(seen, e.evidence) <= SourcesIn(removals) then RemoveAllFrom(seen, removals, e).state == Deleted
        else IsRecomputed(seen, first, SourcesIn(removals), e, RemoveAllFrom(seen, removals, e))
  {
    if removals != [] {
      var n := |removals| - 1;
      var rest, last := removals[..n], removals[n];
      var before := RemoveAllFrom(seen, rest, e);
      Cascade(seen, rest, e);
      FirstTouchIsCited(seen, rest, e);
      SourcesInStep(removals);
      var all := SourcesOf(seen, e.evidence);
      hide IsRecomputed, RemoveFrom, SourcesOf, Deletable, SourcesIn;
      match FirstTouch(seen, rest, e)
      case Some(first) =>
        if all <= SourcesIn(rest) {
          DeletedStays(seen, last, before);
        } else {
          NextRemoval(seen, first, SourcesIn(rest), last, e, before);
        }
      case None =>
        if Cites(seen, e, last.source) {
          FirstRemovalAmong(seen, SourcesIn(rest), last, e);
        } else {
          UncitedStays(seen, last, e);
        }
    }
  }

  lemma SourcesInStep(removals: seq<Removal>)
    requires removals != []
    ensures SourcesIn(removals) == SourcesIn(removals[..|removals| - 1]) + {removals[|removals| - 1].source}
  {
    assert removals == removals[..|removals| - 1] + [removals[|removals| - 1]];
  }

  lemma DeletedStays(seen: Observations, removal: Removal, e: Event)
    requires e.state == Deleted
    ensures RemoveFrom(seen, removal, e) == e
  {
  }

  lemma UncitedStays(seen: Observations, removal: Removal, e: Event)
    requires !Cites(seen, e, removal.source)
    ensures RemoveFrom(seen, removal, e) == e
  {
  }

  /** Sources an event does not cite may have gone before. */
  lemma FirstRemovalAmong(seen: Observations, others: set<Id>, removal: Removal, e: Event)
    requires Deletable(seen, e) && Cites(seen, e, removal.source) && SourcesOf(seen, e.evidence) !! others
    ensures var after := RemoveFrom(seen, removal, e);
      if SourcesOf(seen, e.evidence) <= others + {removal.source} then after.state == Deleted
      else IsRecomputed(seen, removal.source, others + {removal.source}, e, after)
  {
    var s, all := removal.source, SourcesOf(seen, e.evidence);
    FirstRemoval(seen, removal, e);
    assert all * (others + {s}) == all * {s};
    assert all <= others + {s} <==> all <= {s};
    UncitedMakeNoDifference(seen, s, {s}, others, e.evidence);
    assert {s} + others == others + {s};
    hide FinalEvidence, SourcesOf, FactFromEvidence, RemoveFrom;
  }

  lemma {:induction false} UncitedMakeNoDifference(seen: Observations, first: Id, gone: set<Id>, others: set<Id>, evidence: seq<Evidence>)
    requires SourcesOf(seen, evidence) !! others
    ensures FinalEvidence(seen, first, gone + others, evidence) == FinalEvidence(seen, first, gone, evidence)
    decreases others
  {
    if others == {} {
      assert gone + others == gone;
    } else {
      var s :| s in others;
      UncitedMakeNoDifference(seen, first, gone, others - {s}, evidence);
      FinalIrrelevant(seen, first, gone + (others - {s}), s, evidence);
      assert gone + (others - {s}) + {s} == gone + others;
    }
  }

  // ---- what follows, in any order ----

  /** An event is live after the deletions exactly when some of its evidence came from a source that was not deleted. */
  lemma LiveIffEvidenceIsLeft(seen: Observations, removals: seq<Removal>, e: Event)
    requires Deletable(seen, e)
    ensures RemoveAllFrom(seen, removals, e).Live() <==> exists source :: source in SourcesOf(seen, e.evidence) - SourcesIn(removals)
  {
    Cascade(seen, removals, e);
    FirstTouchIsCited(seen, removals, e);
    var all, gone := SourcesOf(seen, e.evidence), SourcesIn(removals);
    var ev := e.evidence[0];
    assert ev in e.evidence;
    var o :| o in ev.observations && o in seen;
    assert seen[o].source in all;
    if FirstTouch(seen, removals, e).None? {
      assert seen[o].source in all - gone;
    } else if !(all <= gone) {
      var source :| source in all && source !in gone;
      assert source in all - gone;
    }
  }

  /** An entry that is left: same field, exactly the outside observations, and no higher confidence. */
  ghost predicate Remains(seen: Observations, sources: set<Id>, ev: Evidence, left: Evidence) {
    left.field == ev.field && left.observations == Outside(seen, sources, ev.observations) && left.confidence <= ev.confidence
  }

  lemma {:induction false} FinalRemains(seen: Observations, first: Id, sources: set<Id>, evidence: seq<Evidence>, left: Evidence)
    requires left in FinalEvidence(seen, first, sources, evidence)
    ensures left.observations != {} && exists ev :: ev in evidence && Remains(seen, sources, ev, left)
  {
    var entry := FinalEntry(seen, first, sources, evidence[0]);
    if left == entry && entry.observations != {} {
      assert Remains(seen, sources, evidence[0], left);
    } else {
      FinalRemains(seen, first, sources, evidence[1..], left);
    }
  }

  lemma {:induction false} FinalKeeps(seen: Observations, first: Id, sources: set<Id>, evidence: seq<Evidence>, ev: Evidence)
    requires ev in evidence && Outside(seen, sources, ev.observations) != {}
    ensures FinalEntry(seen, first, sources, ev) in FinalEvidence(seen, first, sources, evidence)
  {
    if ev != evidence[0] {
      FinalKeeps(seen, first, sources, evidence[1..], ev);
    }
  }

  /** A touched event that is still live: every entry left is an original one reduced to its outside observations, every
      original entry with outside observations is left, and no deleted source is cited any more. */
  lemma SurvivorsAreKept(seen: Observations, removals: seq<Removal>, e: Event)
    requires Deletable(seen, e) && RemoveAllFrom(seen, removals, e).Live() && FirstTouch(seen, removals, e).Some?
    ensures var after := RemoveAllFrom(seen, removals, e).evidence;
      && (forall left :: left in after ==> left.observations != {} && exists ev :: ev in e.evidence && Remains(seen, SourcesIn(removals), ev, left))
      && (forall ev :: ev in e.evidence && Outside(seen, SourcesIn(removals), ev.observations) != {} ==>
            exists left :: left in after && Remains(seen, SourcesIn(removals), ev, left))
      && SourcesOf(seen, after) == SourcesOf(seen, e.evidence) - SourcesIn(removals)
  {
    Cascade(seen, removals, e);
    var first, sources := FirstTouch(seen, removals, e).value, SourcesIn(removals);
    var after := RemoveAllFrom(seen, removals, e).evidence;
    hide RemoveAllFrom, FinalEvidence, SourcesIn, FirstTouch, SourcesOf;
    FinalSources(seen, first, sources, e.evidence);
    forall left | left in after ensures left.observations != {} && exists ev :: ev in e.evidence && Remains(seen, sources, ev, left) {
      FinalRemains(seen, first, sources, e.evidence, left);
    }
    forall ev | ev in e.evidence && Outside(seen, sources, ev.observations) != {}
      ensures exists left :: left in after && Remains(seen, sources, ev, left)
    {
      FinalKeeps(seen, first, sources, e.evidence, ev);
      assert Remains(seen, sources, ev, FinalEntry(seen, first, sources, ev));
    }
  }

  // ---- two orders ----

  /** The same entry but for its confidence. */
  predicate SameButConfidence(a: seq<Evidence>, b: seq<Evidence>) {
    |a| == |b| && forall i :: 0 <= i < |a| ==> a[i] == b[i].(confidence := a[i].confidence)
  }

  lemma {:induction false} FirstSetsOnlyConfidence(seen: Observations, first: Id, other: Id, sources: set<Id>, evidence: seq<Evidence>)
    ensures SameButConfidence(FinalEvidence(seen, first, sources, evidence), FinalEvidence(seen, other, sources, evidence))
  {
    if evidence != [] {
      FirstSetsOnlyConfidence(seen, first, other, sources, evidence[1..]);
    }
  }

  lemma {:induction false} FieldsOfFinal(a: seq<Evidence>, b: seq<Evidence>)
    requires SameButConfidence(a, b)
    ensures (set ev | ev in a :: ev.field) == (set ev | ev in b :: ev.field)
  {
    forall ev | ev in a ensures exists ev' :: ev' in b && ev'.field == ev.field {
      var i :| 0 <= i < |a| && a[i] == ev;
      assert b[i] in b;
    }
    forall ev | ev in b ensures exists ev' :: ev' in a && ev'.field == ev.field {
      var i :| 0 <= i < |b| && b[i] == ev;
      assert a[i] in a && a[i].field == ev.field;
    }
  }

  /** Two orders of the same deletions agree on everything but confidences, the fact status read off them and times. */
  ghost predicate OrdersAgree(a: Event, b: Event) {
    || (a.state == Deleted && b.state == Deleted)
    || (&& a.Live() && a.state == b.state && a.title == b.title && a.description == b.description && a.sources == b.sources
        && a.revision == b.revision && SameButConfidence(a.evidence, b.evidence))
  }

  lemma OrderMattersOnlyToConfidence(seen: Observations, one: seq<Removal>, other: seq<Removal>, e: Event)
    requires Deletable(seen, e) && SourcesIn(one) == SourcesIn(other)
    ensures OrdersAgree(RemoveAllFrom(seen, one, e), RemoveAllFrom(seen, other, e))
  {
    Cascade(seen, one, e);
    Cascade(seen, other, e);
    FirstTouchIsCited(seen, one, e);
    FirstTouchIsCited(seen, other, e);
    var all := SourcesOf(seen, e.evidence);
    hide RemoveAllFrom, FirstTouch, SourcesIn, SourcesOf, FinalEvidence;
    if all !! SourcesIn(one) {
      assert SameButConfidence(e.evidence, e.evidence);
    } else if !(all <= SourcesIn(one)) {
      var f, g := FirstTouch(seen, one, e).value, FirstTouch(seen, other, e).value;
      FirstSetsOnlyConfidence(seen, f, g, SourcesIn(one), e.evidence);
      FieldsOfFinal(FinalEvidence(seen, f, SourcesIn(one), e.evidence), FinalEvidence(seen, g, SourcesIn(one), e.evidence));
      SameSources(seen, FinalEvidence(seen, f, SourcesIn(one), e.evidence), FinalEvidence(seen, g, SourcesIn(one), e.evidence));
    }
  }

  lemma SameSources(seen: Observations, a: seq<Evidence>, b: seq<Evidence>)
    requires SameButConfidence(a, b)
    ensures SourcesOf(seen, a) == SourcesOf(seen, b)
  {
    forall o | o in ObservationsIn(a) ensures o in ObservationsIn(b) {
      var i :| 0 <= i < |a| && o in a[i].observations;
      assert b[i] in b;
    }
    forall o | o in ObservationsIn(b) ensures o in ObservationsIn(a) {
      var i :| 0 <= i < |b| && o in b[i].observations;
      assert a[i] in a && a[i].observations == b[i].observations;
    }
  }

  /** The confidence an entry ends with, if the first deletion that touches the event takes this source. */
  function ConfidenceIfFirst(seen: Observations, first: Id, ev: Evidence): real {
    LeastConfidence(seen, ev.confidence, Outside(seen, {first}, ev.observations))
  }

  /** Two orders agree on the evidence exactly when, for every entry that keeps observations, losing either first source
      leaves the same least confidence. */
  lemma {:induction false} OrdersAgreeOnConfidenceIff(seen: Observations, one: seq<Removal>, other: seq<Removal>, e: Event)
    requires Deletable(seen, e) && SourcesIn(one) == SourcesIn(other)
    requires FirstTouch(seen, one, e).Some? && RemoveAllFrom(seen, one, e).Live()
    ensures FirstTouch(seen, other, e).Some?
    ensures RemoveAllFrom(seen, one, e).evidence == RemoveAllFrom(seen, other, e).evidence <==>
      forall ev :: ev in e.evidence ==>
        SameConfidence(seen, FirstTouch(seen, one, e).value, FirstTouch(seen, other, e).value, SourcesIn(one), ev)
  {
    Cascade(seen, one, e);
    Cascade(seen, other, e);
    FirstTouchIsCited(seen, one, e);
    FirstTouchIsCited(seen, other, e);
    hide RemoveAllFrom, FirstTouch, SourcesIn, FinalEvidence, SameConfidence, SourcesOf;
    FinalEqualIff(seen, FirstTouch(seen, one, e).value, FirstTouch(seen, other, e).value, SourcesIn(one), e.evidence);
  }

  lemma EntryEqualIff(seen: Observations, first: Id, other: Id, sources: set<Id>, ev: Evidence)
    ensures FinalEntry(seen, first, sources, ev) == FinalEntry(seen, other, sources, ev) <==>
            ConfidenceIfFirst(seen, first, ev) == ConfidenceIfFirst(seen, other, ev)
  {
  }

  ghost predicate SameConfidence(seen: Observations, first: Id, other: Id, sources: set<Id>, ev: Evidence) {
    Outside(seen, sources, ev.observations) != {} ==> ConfidenceIfFirst(seen, first, ev) == ConfidenceIfFirst(seen, other, ev)
  }

  lemma PrependEqualIff(x: Evidence, y: Evidence, a: seq<Evidence>, b: seq<Evidence>)
    ensures [x] + a == [y] + b <==> x == y && a == b
  {
    assert ([x] + a)[0] == x && ([y] + b)[0] == y && ([x] + a)[1..] == a && ([y] + b)[1..] == b;
  }

  lemma {:induction false} FinalEqualIff(seen: Observations, first: Id, other: Id, sources: set<Id>, evidence: seq<Evidence>)
    ensures FinalEvidence(seen, first, sources, evidence) == FinalEvidence(seen, other, sources, evidence) <==>
      forall ev :: ev in evidence ==> SameConfidence(seen, first, other, sources, ev)
  {
    if evidence != [] {
      var ra, rb := FinalEvidence(seen, first, sources, evidence[1..]), FinalEvidence(seen, other, sources, evidence[1..]);
      FinalEqualIff(seen, first, other, sources, evidence[1..]);
      var x, y := FinalEntry(seen, first, sources, evidence[0]), FinalEntry(seen, other, sources, evidence[0]);
      EntryEqualIff(seen, first, other, sources, evidence[0]);
      assert x.observations == y.observations == Outside(seen, sources, evidence[0].observations);
      assert x == y <==> ConfidenceIfFirst(seen, first, evidence[0]) == ConfidenceIfFirst(seen, other, evidence[0]);
      PrependEqualIff(x, y, ra, rb);
      assert forall ev :: ev in evidence <==> ev == evidence[0] || ev in evidence[1..];
      if x.observations == {} {
        assert [] + ra == ra && [] + rb == rb;
        assert SameConfidence(seen, first, other, sources, evidence[0]);
      } else {
        assert SameConfidence(seen, first, other, sources, evidence[0]) <==> x == y;
      }
    }
  }

  /** The order does matter: with observations of confidence 0.2, 0.9 and 0.8 from three sources, losing the first two in
      one order leaves a high-confidence event, in the other a low-confidence one. */
  lemma OrderChangesConfidence(e: Event, seen: Observations)
    requires e.Live() && e.fact != ConflictFact
    requires e.evidence == [Evidence("title", {1, 2, 3}, 1.0, Inferred)]
    requires seen == map[1 := Observation(11, e.space, Inferred, 0.2), 2 := Observation(12, e.space, Inferred, 0.9),
                         3 := Observation(13, e.space, Inferred, 0.8)]
    ensures var one := RemoveAllFrom(seen, [Removal(11, 0), Removal(12, 0)], e);
      var other := RemoveAllFrom(seen, [Removal(12, 0), Removal(11, 0)], e);
      && one.evidence == [Evidence("title", {3}, 0.8, Inferred)] && one.fact == HighConfidence
      && other.evidence == [Evidence("title", {3}, 0.2, Inferred)] && other.fact == LowConfidence
  {
    var ev := e.evidence[0];
    assert e.evidence == [ev];
    SourcesOfOne(seen, ev);
    assert 1 in seen && 2 in seen && 3 in seen;
    assert seen[1].source in EntrySourcesOf(seen, ev) && seen[2].source in EntrySourcesOf(seen, ev) && seen[3].source in EntrySourcesOf(seen, ev);
    assert Deletable(seen, e);
    OneOrder(seen, e, ev, 11, 12, 0.8);
    OneOrder(seen, e, ev, 12, 11, 0.2);
  }

  lemma OneOrder(seen: Observations, e: Event, ev: Evidence, first: Id, second: Id, confidence: real)
    requires Deletable(seen, e) && e.evidence == [ev] && ev.field == "title" && ev.observations == {1, 2, 3} && ev.confidence == 1.0
    requires {11, 12, 13} <= SourcesOf(seen, e.evidence)
    requires first in {11, 12} && second in {11, 12} && first != second
    requires 1 in seen && 2 in seen && 3 in seen && seen[1].source == 11 && seen[2].source == 12 && seen[3].source == 13
    requires seen[1].confidence == 0.2 && seen[2].confidence == 0.9 && seen[3].confidence == 0.8 && seen[3].status == Inferred
    requires confidence == if first == 11 then 0.8 else 0.2
    ensures var after := RemoveAllFrom(seen, [Removal(first, 0), Removal(second, 0)], e);
      && after.evidence == [Evidence("title", {3}, confidence, Inferred)]
      && after.fact == if confidence >= 0.7 then HighConfidence else LowConfidence
  {
    var removals := [Removal(first, 0), Removal(second, 0)];
    Cascade(seen, removals, e);
    TouchedInOrder(seen, first, second, e);
    OneEntry(seen, ev, first, confidence);
    var last := Evidence("title", {3}, confidence, Inferred);
    OneFact(last);
    OneFinal(seen, first, ev, last);
    assert {first, second} == {11, 12} && 13 in SourcesOf(seen, e.evidence) && 13 !in SourcesIn(removals);
    hide RemoveAllFrom, FirstTouch, SourcesIn, SourcesOf, FinalEntry, FactFromEvidence, FinalEvidence;
  }

  lemma OneFinal(seen: Observations, first: Id, ev: Evidence, last: Evidence)
    requires FinalEntry(seen, first, {11, 12}, ev) == last && last.observations != {}
    ensures FinalEvidence(seen, first, {11, 12}, [ev]) == [last]
  {
    assert [ev][1..] == [];
    assert FinalEvidence(seen, first, {11, 12}, []) == [];
  }

  lemma TouchedInOrder(seen: Observations, first: Id, second: Id, e: Event)
    requires Cites(seen, e, first)
    ensures var removals := [Removal(first, 0), Removal(second, 0)];
      FirstTouch(seen, removals, e) == Some(first) && SourcesIn(removals) == {first, second}
  {
    var removals := [Removal(first, 0), Removal(second, 0)];
    assert removals[..1] == [Removal(first, 0)] && removals[..1][..0] == [];
    assert FirstTouch(seen, removals[..1], e) == Some(first);
    assert removals[0] in removals && removals[1] in removals;
  }

  lemma OneEntry(seen: Observations, ev: Evidence, first: Id, confidence: real)
    requires ev.field == "title" && ev.observations == {1, 2, 3} && ev.confidence == 1.0 && first in {11, 12}
    requires 1 in seen && 2 in seen && 3 in seen && seen[1].source == 11 && seen[2].source == 12 && seen[3].source == 13
    requires seen[1].confidence == 0.2 && seen[2].confidence == 0.9 && seen[3].confidence == 0.8 && seen[3].status == Inferred
    requires confidence == if first == 11 then 0.8 else 0.2
    ensures FinalEntry(seen, first, {11, 12}, ev) == Evidence("title", {3}, confidence, Inferred)
  {
    var many := Outside(seen, {first}, ev.observations);
    assert many == if first == 11 then {2, 3} else {1, 3};
    assert Outside(seen, {11, 12}, ev.observations) == {3};
    assert StatusesOf(seen, {3}) == {Inferred};
    assert IsLeast(seen, 1.0, many, confidence) by { assert 3 in many && (if first == 11 then 2 else 1) in many; }
    LeastIsUnique(seen, 1.0, many, confidence);
  }

  lemma OneFact(last: Evidence)
    requires last.status == Inferred
    ensures FactFromEvidence([last]) == if last.confidence >= 0.7 then HighConfidence else LowConfidence
  {
    assert last in [last];
    assert FieldStatuses([last]) == {Inferred};
  }
}
