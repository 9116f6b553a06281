/** The two deduplicators (rules.py): exact and safe deduplication differ in the key only. Ids are represented by their
    rank in string order, keys by the values whose canonical text they are. */
module Deduplication {
  import opened Json

  type Id = nat

  /** Something to deduplicate: an id, and the key equal things share, if it may be merged at all. */
  datatype Thing = Thing(id: Id, key: Option<Json>)

  /** What is kept, and which kept thing each other one duplicates. */
  datatype Dedup = Dedup(kept: set<Id>, duplicateOf: map<Id, Id>)

  /** Without a key, or the least of its key. */
  ghost predicate First(things: set<Thing>, t: Thing) {
    t.key.None? || forall u :: u in things && u.key == t.key ==> t.id <= u.id
  }

  ghost predicate PointsToFirst(things: set<Thing>, t: Thing, id: Id) {
    exists u :: u in things && u.key == t.key && u.id == id && First(things, u)
  }

  /** First things are kept; every other one points to the first of its key. */
  ghost predicate ThingOk(things: set<Thing>, d: Dedup, t: Thing) {
    t in things ==>
      && (t.id in d.kept <==> First(things, t))
      && (t.id in d.duplicateOf <==> !First(things, t))
      && (t.id in d.duplicateOf ==> PointsToFirst(things, t, d.duplicateOf[t.id]))
  }

  ghost predicate Deduplicated(things: set<Thing>, d: Dedup) {
    && (forall t :: ThingOk(things, d, t))
    && (forall id :: id in d.kept || id in d.duplicateOf ==> exists t :: t in things && t.id == id)
  }

  /** A thing after all others leaves the firsts what they are. */
  lemma FirstsStay(before: set<Thing>, t: Thing, x: Thing)
    requires (forall u :: u in before ==> u.id < t.id) && x in before
    ensures First(before + {t}, x) <==> First(before, x)
  {
  }

  lemma DedupOneMore(before: set<Thing>, t: Thing, d: Dedup, e: Dedup, original: Option<Id>)
    requires (forall u :: u in before ==> u.id < t.id) && Deduplicated(before, d)
    requires original == None <==> First(before + {t}, t)
    requires original.Some? ==> PointsToFirst(before, t, original.value)
    requires e == if original == None then d.(kept := d.kept + {t.id}) else d.(duplicateOf := d.duplicateOf[t.id := original.value])
    ensures Deduplicated(before + {t}, e)
  {
    assert t.id !in d.kept && t.id !in d.duplicateOf;
    forall x ensures ThingOk(before + {t}, e, x) {
      assert ThingOk(before, d, x);
      if x in before {
        FirstsStay(before, t, x);
        if x.id in d.duplicateOf {
          OriginalStays(before, t, x, d.duplicateOf[x.id]);
        }
      } else if x == t && original.Some? {
        OriginalStays(before, t, t, original.value);
      }
    }
    forall id | id in e.kept || id in e.duplicateOf ensures exists x :: x in before + {t} && x.id == id {
      if id == t.id {
        assert t in before + {t};
      } else {
        var x :| x in before && x.id == id;
        assert x in before + {t};
      }
    }
  }

  lemma OriginalStays(before: set<Thing>, t: Thing, x: Thing, id: Id)
    requires (forall u :: u in before ==> u.id < t.id) && PointsToFirst(before, x, id)
    ensures PointsToFirst(before + {t}, x, id)
  {
    var u :| u in before && u.key == x.key && u.id == id && First(before, u);
    FirstsStay(before, t, u);
    assert u in before + {t};
  }

  function LeastThing(things: set<Thing>): (least: Thing)
    requires things != {} && forall a, b :: a in things && b in things && a.id == b.id ==> a == b
    ensures least in things && forall t :: t in things ==> least.id <= t.id
  {
    ThereIsALeast(things);
    var least :| least in things && forall t :: t in things ==> least.id <= t.id;
    least
  }

  lemma ThereIsALeast(things: set<Thing>)
    requires things != {}
    ensures exists least :: least in things && forall t :: t in things ==> least.id <= t.id
  {
    var x :| x in things;
    var rest := things - {x};
    if rest == {} {
      assert things == {x};
      assert x in things && forall t :: t in things ==> x.id <= t.id;
    } else {
      ThereIsALeast(rest);
      var least :| least in rest && forall t :: t in rest ==> least.id <= t.id;
      var m := if x.id < least.id then x else least;
      assert forall t :: t in things ==> t == x || t in rest;
      assert m in things && forall t :: t in things ==> m.id <= t.id;
    }
  }

  /** The first thing of a key seen so far. */
  ghost predicate SeenOk(before: set<Thing>, seen: map<Json, Id>, k: Json) {
    && (k in seen <==> exists t :: t in before && t.key == Some(k))
    && (k in seen ==> exists t :: t in before && t.key == Some(k) && t.id == seen[k] && First(before, t))
  }

  function NextSeen(seen: map<Json, Id>, t: Thing): map<Json, Id> {
    if t.key.Some? && t.key.value !in seen then seen[t.key.value := t.id] else seen
  }

  lemma SeenOneMore(before: set<Thing>, t: Thing, seen: map<Json, Id>, k: Json)
    requires (forall u :: u in before ==> u.id < t.id) && SeenOk(before, seen, k)
    ensures SeenOk(before + {t}, NextSeen(seen, t), k)
  {
    if k in seen {
      var u :| u in before && u.key == Some(k) && u.id == seen[k] && First(before, u);
      FirstsStay(before, t, u);
      assert u in before + {t};
    } else if t.key == Some(k) {
      assert t in before + {t} && First(before + {t}, t);
    }
  }

  /** exact_deduplicate and safe_deduplicate: one pass in order of ids, remembering the first of every key. */
  method Deduplicate(things: set<Thing>) returns (d: Dedup)
    requires forall a, b :: a in things && b in things && a.id == b.id ==> a == b
    ensures Deduplicated(things, d)
  {
    hide Deduplicated, SeenOk;
    d := Dedup({}, map[]);
    var seen: map<Json, Id> := map[];
    var todo := things;
    ghost var done: set<Thing> := {};
    NothingDeduplicated();
    while todo != {}
      invariant done + todo == things && done !! todo
      invariant forall t, u :: t in done && u in todo ==> t.id < u.id
      invariant Deduplicated(done, d)
      invariant forall k :: SeenOk(done, seen, k)
      decreases todo
    {
      var t := LeastThing(todo);
      forall k ensures SeenOk(done + {t}, NextSeen(seen, t), k) {
        SeenOneMore(done, t, seen, k);
      }
      if t.key.Some? {
        SeenMeans(done, t, seen);
      }
      ghost var original := if t.key.Some? && t.key.value in seen then Some(seen[t.key.value]) else None;
      ghost var before, next := d, NextSeen(seen, t);
      if t.key == None {
        d := d.(kept := d.kept + {t.id});
      } else if t.key.value in seen {
        d := d.(duplicateOf := d.duplicateOf[t.id := seen[t.key.value]]);
      } else {
        seen := seen[t.key.value := t.id];
        d := d.(kept := d.kept + {t.id});
      }
      assert seen == next;
      DedupOneMore(done, t, before, d, original);
      todo, done := todo - {t}, done + {t};
    }
    assert done == things;
  }

  lemma NothingDeduplicated()
    ensures Deduplicated({}, Dedup({}, map[])) && forall k :: SeenOk({}, map[], k)
  {
  }

  lemma SeenMeans(before: set<Thing>, t: Thing, seen: map<Json, Id>)
    requires t.key.Some? && SeenOk(before, seen, t.key.value) && forall u :: u in before ==> u.id < t.id
    ensures t.key.value !in seen <==> First(before + {t}, t)
    ensures t.key.value in seen ==> PointsToFirst(before, t, seen[t.key.value])
  {
    if t.key.value in seen {
      var u :| u in before && u.key == t.key && u.id == seen[t.key.value] && First(before, u);
      assert u in before + {t};
    }
  }

  /** The result is determined by the set of things, and each duplicate points to the least thing of its key. */
  lemma DedupIsCanonical(things: set<Thing>, a: Dedup, b: Dedup, t: Thing)
    requires Deduplicated(things, a) && Deduplicated(things, b) && t in things
    ensures t.id in a.kept <==> t.id in b.kept
    ensures t.id in a.duplicateOf <==> t.id in b.duplicateOf
    ensures t.id in a.duplicateOf ==>
      a.duplicateOf[t.id] == b.duplicateOf[t.id] < t.id && a.duplicateOf[t.id] in a.kept &&
      exists u :: u in things && u.key == t.key && u.id == a.duplicateOf[t.id]
  {
    assert ThingOk(things, a, t) && ThingOk(things, b, t);
    if t.id in a.duplicateOf {
      var u :| u in things && u.key == t.key && u.id == a.duplicateOf[t.id] && First(things, u);
      var v :| v in things && v.key == t.key && v.id == b.duplicateOf[t.id] && First(things, v);
      assert ThingOk(things, a, u);
      assert u.id <= v.id && v.id <= u.id;
    }
  }
}
