/** The receive window: where every recorded sequence number is, in every run. */
module SyncWindow {
  import opened SyncModel
  import opened SyncTransitions

  /** A recorded slot is behind the cursor, pending or quarantined, and in only one of the three;
      everything behind the cursor is recorded. */
  ghost predicate Place(c: Config, w: Window, s: Slot) {
    && (s in w.recorded ==>
          && SlotOf(w.recorded[s]) == s && w.recorded[s].spaceId == c.spaceId
          && (s in w.quarantine <==> w.recorded[s].schemaVersion !in c.supported)
          && (s.number <= Cursor(w, s.device) || s in w.pending || s in w.quarantine))
    && (s in w.pending ==>
          && s in w.recorded && s !in w.quarantine && s.number > Cursor(w, s.device)
          && w.pending[s].envelope == w.recorded[s]
          && w.pending[s].preapplied == IsPriority(w.recorded[s]))
    && (s in w.quarantine ==> s in w.recorded && s.number > Cursor(w, s.device))
    && (1 <= s.number <= Cursor(w, s.device) ==> s in w.recorded)
  }

  /** Holds also while _drain is under way. */
  ghost predicate Placed(c: Config, w: Window) {
    forall s :: Place(c, w, s)
  }

  /** Nothing is left for _drain, except possibly at one origin. */
  ghost predicate SettledBut(w: Window, device: string) {
    forall d :: d != device ==> Next(w, d) !in w.pending
  }

  ghost predicate Settled(w: Window) {
    forall d :: Next(w, d) !in w.pending
  }

  ghost predicate WindowInv(st: PeerState) {
    Placed(st.config, st.window) && Settled(st.window)
  }

  lemma DrainStepKeepsPlaced(st: PeerState, device: string, now: int)
    requires Placed(st.config, st.window) && SettledBut(st.window, device)
    requires Next(st.window, device) in st.window.pending
    ensures var r := DrainStep(st, device, now); Placed(r.config, r.window) && SettledBut(r.window, device)
  {
    var r := DrainStep(st, device, now);
    var next := Next(st.window, device);
    assert Place(st.config, st.window, next);
    forall s ensures Place(r.config, r.window, s) {
      assert Place(st.config, st.window, s);
      assert s.device == device && s.number == next.number ==> s == next;
    }
    forall d: string | d != device ensures Next(r.window, d) !in r.window.pending {
      assert Next(r.window, d) == Next(st.window, d);
    }
  }

  /** _drain ends with nothing pending next to a cursor and touches no recorded or quarantined slot. */
  lemma {:induction false} DrainSettles(st: PeerState, device: string, now: int)
    requires Placed(st.config, st.window) && SettledBut(st.window, device)
    ensures var r := Drain(st, device, now);
      && WindowInv(r) && r.config == st.config
      && r.window.recorded == st.window.recorded && r.window.quarantine == st.window.quarantine
    decreases |st.window.pending|
  {
    if Next(st.window, device) in st.window.pending {
      DrainStepKeepsPlaced(st, device, now);
      DrainSettles(DrainStep(st, device, now), device, now);
    } else {
      assert Settled(st.window);
    }
  }

  /** The window after an in-order envelope, before _drain. */
  function InOrder(w: Window, e: Envelope): Window {
    Advance(w.(recorded := w.recorded[SlotOf(e) := e]), e.device, e.sequence)
  }

  /** The window after an envelope of an unsupported schema. */
  function Quarantining(w: Window, e: Envelope): Window {
    w.(recorded := w.recorded[SlotOf(e) := e], quarantine := w.quarantine + [SlotOf(e)])
  }

  /** The window after an envelope beyond the expected number. */
  function BeyondGap(w: Window, e: Envelope, p: Pending): Window {
    w.(recorded := w.recorded[SlotOf(e) := e], pending := w.pending[SlotOf(e) := p])
  }

  /** An envelope of the peer's space in a slot not used before. */
  ghost predicate IsNew(c: Config, w: Window, e: Envelope) {
    e.spaceId == c.spaceId && SlotOf(e) !in w.recorded
  }

  /** The stale-sequence branch of receive cannot be reached: an unused slot is ahead of the cursor. */
  lemma NewSlotIsAhead(c: Config, w: Window, e: Envelope)
    requires Placed(c, w) && SlotOf(e) !in w.recorded
    ensures e.sequence > Cursor(w, e.device)
  {
    assert Place(c, w, SlotOf(e));
  }

  lemma InOrderPlaced(c: Config, w: Window, e: Envelope)
    requires Placed(c, w) && Settled(w) && IsNew(c, w, e) && e.schemaVersion in c.supported
    requires SlotOf(e) == Next(w, e.device)
    ensures Placed(c, InOrder(w, e)) && SettledBut(InOrder(w, e), e.device)
  {
    var r := InOrder(w, e);
    assert Place(c, w, SlotOf(e));
    forall s ensures Place(c, r, s) {
      assert Place(c, w, s);
      assert s.device == e.device && s.number == e.sequence ==> s == SlotOf(e);
    }
    forall d: string | d != e.device ensures Next(r, d) !in r.pending {
      assert Next(r, d) == Next(w, d);
    }
  }

  lemma QuarantiningPlaced(c: Config, w: Window, e: Envelope)
    requires Placed(c, w) && IsNew(c, w, e) && e.schemaVersion !in c.supported
    ensures Placed(c, Quarantining(w, e))
  {
    NewSlotIsAhead(c, w, e);
    assert Place(c, w, SlotOf(e));
    forall s ensures Place(c, Quarantining(w, e), s) {
      assert Place(c, w, s);
    }
  }

  lemma BeyondGapPlaced(c: Config, w: Window, e: Envelope, p: Pending)
    requires Placed(c, w) && IsNew(c, w, e) && e.schemaVersion in c.supported
    requires p.envelope == e && p.preapplied == IsPriority(e)
    ensures Placed(c, BeyondGap(w, e, p))
  {
    NewSlotIsAhead(c, w, e);
    assert Place(c, w, SlotOf(e));
    forall s ensures Place(c, BeyondGap(w, e, p), s) {
      assert Place(c, w, s);
    }
  }

  /** What a new envelope is kept as when it lies beyond the expected number. */
  function GapEntry(st: PeerState, e: Envelope, now: int): Pending {
    if IsPriority(e) then
      var eff := ApplySemantics(st.config, st.memory, e, now);
      Pending(e, true, eff.applied, eff.code)
    else Pending(e, false, false, SyncSequenceGap)
  }

  /** The four outcomes a new envelope can have in a reachable window; the stale one is gone. */
  lemma NewOutcomes(st: PeerState, e: Envelope, now: int)
    requires WindowInv(st) && IsNew(st.config, st.window, e)
    ensures var r := ReceiveNew(st, e, now).st;
      var eff := ApplySemantics(st.config, st.memory, e, now);
      if e.schemaVersion !in st.config.supported then
        r == st.(window := Quarantining(st.window, e))
      else if SlotOf(e) == Next(st.window, e.device) then
        r == Drain(PeerState(st.config, InOrder(st.window, e), eff.memory), e.device, now)
      else
        && e.sequence > Next(st.window, e.device).number
        && r == PeerState(st.config, BeyondGap(st.window, e, GapEntry(st, e, now)),
                          if IsPriority(e) then eff.memory else st.memory)
    ensures ReceiveNew(st, e, now).receipt.code != ReplayStaleSequence
  {
    NewSlotIsAhead(st.config, st.window, e);
  }

  lemma ReceiveNewKeepsWindow(st: PeerState, e: Envelope, now: int)
    requires WindowInv(st) && IsNew(st.config, st.window, e)
    ensures var r := ReceiveNew(st, e, now).st;
      && WindowInv(r) && r.config == st.config
      && r.window.recorded == st.window.recorded[SlotOf(e) := e]
      && forall s :: s in st.window.quarantine ==> s in r.window.quarantine
  {
    NewOutcomes(st, e, now);
    var w := ReceiveNew(st, e, now).st.window;
    if e.schemaVersion !in st.config.supported {
      QuarantiningPlaced(st.config, st.window, e);
      assert forall d :: Next(w, d) == Next(st.window, d);
    } else if SlotOf(e) == Next(st.window, e.device) {
      InOrderPlaced(st.config, st.window, e);
      var eff := ApplySemantics(st.config, st.memory, e, now);
      DrainSettles(PeerState(st.config, InOrder(st.window, e), eff.memory), e.device, now);
    } else {
      BeyondGapPlaced(st.config, st.window, e, GapEntry(st, e, now));
      forall d: string ensures Next(w, d) !in w.pending {
        assert Next(w, d) == Next(st.window, d);
      }
    }
  }

  /** One delivery keeps the window, records at most its own slot, and never meets a stale sequence. */
  lemma ReceiveKeepsWindow(st: PeerState, e: Envelope, now: int)
    requires WindowInv(st)
    ensures var r := Receive(st, e, now).st;
      && WindowInv(r) && r.config == st.config
      && (forall s :: s in st.window.quarantine ==> s in r.window.quarantine)
      && r.window.recorded ==
           if IsNew(st.config, st.window, e) then st.window.recorded[SlotOf(e) := e] else st.window.recorded
    ensures Receive(st, e, now).receipt.code != ReplayStaleSequence
  {
    if IsNew(st.config, st.window, e) {
      ReceiveNewKeepsWindow(st, e, now);
      NewOutcomes(st, e, now);
    }
  }

  lemma {:induction false} RunKeepsWindow(c: Config, ds: seq<Delivery>)
    ensures WindowInv(Run(Fresh(c), ds)) && Run(Fresh(c), ds).config == c
  {
    if ds == [] {
      assert forall s :: Place(c, Fresh(c).window, s);
    } else {
      var d := ds[|ds| - 1];
      RunKeepsWindow(c, ds[..|ds| - 1]);
      ReceiveKeepsWindow(Run(Fresh(c), ds[..|ds| - 1]), d.envelope, d.tick);
    }
  }

  ghost function Numbers(slots: set<Slot>, device: string): (r: set<int>)
    ensures forall n :: n in r <==> Slot(device, n) in slots
  {
    var r := set s | s in slots && s.device == device :: s.number;
    assert forall n :: Slot(device, n) in slots ==> Slot(device, n).number in r;
    r
  }

  ghost function UpTo(n: nat): (r: set<int>)
    ensures forall i :: i in r <==> 1 <= i <= n
  {
    if n == 0 then {} else UpTo(n - 1) + {n}
  }

  ghost function Quarantined(w: Window): set<Slot> { set s | s in w.quarantine }

  /** The receive-window theorem: in every run and for every origin, the recorded numbers are the
      disjoint union of 1..cursor, the pending and the quarantined ones, and nothing pending is
      adjacent to the cursor. */
  lemma RecordedNumbersArePartitioned(c: Config, ds: seq<Delivery>, device: string)
    ensures var w := Run(Fresh(c), ds).window;
      var pending := Numbers(w.pending.Keys, device);
      var quarantined := Numbers(Quarantined(w), device);
      && Numbers(w.recorded.Keys, device) == UpTo(Cursor(w, device)) + pending + quarantined
      && UpTo(Cursor(w, device)) !! pending !! quarantined
      && forall n :: n in pending ==> n >= Cursor(w, device) + 2
  {
    RunKeepsWindow(c, ds);
    Partition(c, Run(Fresh(c), ds).window, device);
  }

  lemma Partition(c: Config, w: Window, device: string)
    requires Placed(c, w) && Settled(w)
    ensures var pending := Numbers(w.pending.Keys, device);
      var quarantined := Numbers(Quarantined(w), device);
      && Numbers(w.recorded.Keys, device) == UpTo(Cursor(w, device)) + pending + quarantined
      && UpTo(Cursor(w, device)) !! pending !! quarantined
      && forall n :: n in pending ==> n >= Cursor(w, device) + 2
  {
    var recorded, cursor := Numbers(w.recorded.Keys, device), UpTo(Cursor(w, device));
    var pending, quarantined := Numbers(w.pending.Keys, device), Numbers(Quarantined(w), device);
    forall n: int
      ensures n in recorded <==> n in cursor || n in pending || n in quarantined
      ensures n in pending ==> n !in quarantined && n >= Cursor(w, device) + 2
      ensures n in quarantined ==> n > Cursor(w, device)
    {
      assert Place(c, w, Slot(device, n));
      assert Next(w, device) !in w.pending;
    }
  }

  /** A cursor never reaches a quarantined number, whatever arrives later. */
  lemma {:induction false} QuarantineBlocksCursor(st: PeerState, ds: seq<Delivery>, s: Slot)
    requires WindowInv(st) && s in st.window.quarantine
    ensures var r := Run(st, ds);
      && WindowInv(r) && s in r.window.quarantine && Cursor(r.window, s.device) < s.number
  {
    if ds != [] {
      var d := ds[|ds| - 1];
      QuarantineBlocksCursor(st, ds[..|ds| - 1], s);
      ReceiveKeepsWindow(Run(st, ds[..|ds| - 1]), d.envelope, d.tick);
    }
    assert Place(Run(st, ds).config, Run(st, ds).window, s);
  }
}
