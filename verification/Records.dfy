/** What the endpoint records say about the past of a run: where they come from, that they
    stay under their own IDs, and that nothing but a Join brings one into being. */
module Records {
  import opened Types
  import opened TableOps
  import opened Protocol
  import opened StateFile

  // -------------------------------------------------------------------------
  // Tables stay keyed by their records' own IDs
  // -------------------------------------------------------------------------

  ghost predicate KeyedRecords(w: World) {
    Keyed(w.tables.records) && forall k | k in w.stateWrites :: Keyed(w.stateWrites[k])
  }

  lemma KeyedStep(w: World, step: Step)
    requires KeyedRecords(w)
    ensures KeyedRecords(Apply(w, step))
  {
    hide Apply, KeyedRecords;
    match step
    case Crash => KeyedCrash(w);
    case WriteState(k, ok, entries) => KeyedWrite(w, k, ok, entries);
    case _ => KeyedRecordStep(w, step);
  }

  lemma KeyedCrash(w: World)
    ensures KeyedRecords(Apply(w, Crash))
  {
    hide Only, RoleFrom, Started, KeepsLooking, KeepsRestoring, Moves, KeepsMarked, KeepsCreating;
    LoadSound(w.stateFile);
  }

  lemma KeyedWrite(w: World, k: nat, ok: bool, entries: seq<EndpointRecord>)
    requires KeyedRecords(w)
    ensures KeyedRecords(Apply(w, WriteState(k, ok, entries)))
  {
    hide Only, RoleFrom, Started, KeepsLooking, KeepsRestoring, Moves, KeepsMarked, KeepsCreating;
  }

  lemma KeyedRecordStep(w: World, step: Step)
    requires KeyedRecords(w) && !step.Crash? && !step.WriteState?
    ensures KeyedRecords(Apply(w, step))
  {
    hide Apply;
    RecordSteps(w, step);
  }

  lemma {:induction false} KeyedRun(w: World, steps: seq<Step>)
    requires KeyedRecords(w)
    ensures KeyedRecords(After(w, steps))
  {
    hide Apply, KeyedRecords;
    if steps != [] {
      KeyedRun(w, steps[..|steps| - 1]);
      KeyedStep(After(w, steps[..|steps| - 1]), steps[|steps| - 1]);
    }
  }

  /** Loading what a save of the current table wrote gives the table back, stamped, in every
      state of every run and for every order the table was listed in. */
  lemma ReachableRoundTrip(w: World, steps: seq<Step>, entries: seq<EndpointRecord>)
    requires KeyedRecords(w)
    requires Lists(entries, StampAll(After(w, steps).tables.records))
    ensures Reloads(Load(entries), After(w, steps).tables.records)
  {
    KeyedRun(w, steps);
    RoundTrip(entries, After(w, steps).tables.records);
  }

  // -------------------------------------------------------------------------
  // A property of every record, wherever it is kept
  // -------------------------------------------------------------------------

  /** `p` holds of the records in memory, in pending saves and on disk. */
  ghost predicate Kept(w: World, p: EndpointRecord -> bool) {
    (forall id | id in w.tables.records :: p(w.tables.records[id])) &&
    (forall k, id | k in w.stateWrites && id in w.stateWrites[k] :: p(w.stateWrites[k][id])) &&
    (forall e | e in w.stateFile :: p(e))
  }

  /** ... and in the hands of a Restore. */
  ghost predicate Queued(w: World, p: EndpointRecord -> bool) {
    forall t | t in w.roles && w.roles[t].Restoring? :: forall e | e in w.roles[t].todo :: p(e)
  }

  /** Renaming the host and stamping the version do not matter to `p`. */
  ghost predicate Stable(p: EndpointRecord -> bool) {
    (forall e, h :: p(e) ==> p(e.(hostname := h))) && (forall e :: p(e) ==> p(Stamp(e)))
  }

  lemma KeptStep(w: World, step: Step, p: EndpointRecord -> bool)
    requires Kept(w, p) && Stable(p)
    requires Adds(w, step) ==> p(PersistedRecord(w.roles[step.t]))
    ensures Kept(Apply(w, step), p)
  {
    hide Apply, Kept;
    if step.Crash? {
      KeptCrash(w, p);
    } else if step.WriteState? {
      KeptWrite(w, step.w, step.ok, step.entries, p);
    } else {
      KeptRecordStep(w, step, p);
    }
  }

  lemma KeptCrash(w: World, p: EndpointRecord -> bool)
    requires Kept(w, p) && Stable(p)
    ensures Kept(Apply(w, Crash), p)
  {
    hide Only, RoleFrom, Started, KeepsLooking, KeepsRestoring, Moves, KeepsMarked, KeepsCreating;
    LoadSound(w.stateFile);
  }

  lemma KeptRecordStep(w: World, step: Step, p: EndpointRecord -> bool)
    requires Kept(w, p) && Stable(p) && !step.Crash? && !step.WriteState?
    requires Adds(w, step) ==> p(PersistedRecord(w.roles[step.t]))
    ensures Kept(Apply(w, step), p)
  {
    hide Apply;
    RecordSteps(w, step);
  }

  lemma WrittenKept(w: World, w': World, k: nat, entries: seq<EndpointRecord>, p: EndpointRecord -> bool)
    requires Kept(w, p) && Stable(p) && k in w.stateWrites && Lists(entries, StampAll(w.stateWrites[k]))
    requires w'.tables.records == w.tables.records && w'.stateWrites == w.stateWrites - {k}
    requires w'.stateFile == entries || w'.stateFile == w.stateFile
    ensures Kept(w', p)
  {
    forall e | e in entries ensures p(e) {
      assert e == Stamp(w.stateWrites[k][e.endpointID]);
    }
  }

  lemma KeptWrite(w: World, k: nat, ok: bool, entries: seq<EndpointRecord>, p: EndpointRecord -> bool)
    requires Kept(w, p) && Stable(p)
    ensures Kept(Apply(w, WriteState(k, ok, entries)), p)
  {
    hide Kept, Stable, Lists, StampAll, Only, RoleFrom, Started, KeepsLooking, KeepsRestoring, Moves, KeepsMarked,
      KeepsCreating;
    if k in w.stateWrites && Lists(entries, StampAll(w.stateWrites[k])) {
      WrittenKept(w, DoWriteState(w, k, ok, entries), k, entries, p);
    }
  }

  lemma QueuedStep(w: World, step: Step, p: EndpointRecord -> bool)
    requires Kept(w, p) && Queued(w, p)
    ensures Queued(Apply(w, step), p)
  {
    hide Apply, KeepsLooking, KeepsRestoring, Moves, KeepsMarked, KeepsCreating;
    if step.Crash? {
      QueuedCrash(w, p);
    } else {
      FreshRestores(w, step);
      StepFrame(w, step);
    }
  }

  lemma QueuedCrash(w: World, p: EndpointRecord -> bool)
    ensures Queued(Apply(w, Crash), p)
  {
    hide Only, RoleFrom, Started, KeepsLooking, KeepsRestoring, Moves, KeepsMarked, KeepsCreating;
  }

  /** A Restore works through a snapshot of the records, and nothing else. */
  lemma FreshRestores(w: World, step: Step)
    requires !step.Crash?
    ensures var w' := Apply(w, step); var t := Actor(step);
      t in w'.roles && w'.roles[t].Restoring? ==> forall e | e in w'.roles[t].todo ::
        if t in w.roles then w.roles[t].Restoring? && e in w.roles[t].todo
        else e.endpointID in w.tables.records && w.tables.records[e.endpointID] == e
  {
    hide Apply, Only, KeepsLooking, KeepsRestoring, Moves, KeepsMarked, KeepsCreating;
    StepFrame(w, step);
  }

  // -------------------------------------------------------------------------
  // No resurrection
  // -------------------------------------------------------------------------

  /** The record of `ep` in memory. */
  function Word(w: World, ep: EndpointId): Option<EndpointRecord> {
    Find(w.tables.records, ep)
  }

  /** What one step says about the record of `ep`, if `before` was the word so far. */
  function NextWord(v: World, step: Step, ep: EndpointId, before: Option<EndpointRecord>): Option<EndpointRecord> {
    if step.Crash? then Find(Load(v.stateFile), ep)
    else if Adds(v, step) && PersistedRecord(v.roles[step.t]).endpointID == ep then
      Some(PersistedRecord(v.roles[step.t]))
    else if Names(v, step) && v.roles[step.t].req.ep == ep && before.Some? then
      Some(before.value.(hostname := v.roles[step.t].back.hostname))
    else if Removes(v, step) && RemovedEndpoint(v, step) == ep then None
    else before
  }

  /** The last word on the record of `ep` in a run: the record a Join added with the hostname its
      background thread found, none after a removal, what was on disk after a crash, or what was
      there at the start. */
  ghost function LastWord(w: World, steps: seq<Step>, ep: EndpointId): Option<EndpointRecord> {
    if steps == [] then Word(w, ep)
    else
      var v := After(w, steps[..|steps| - 1]);
      var step := steps[|steps| - 1];
      NextWord(v, step, ep, LastWord(w, steps[..|steps| - 1], ep))
  }

  /** A record exists exactly when the last add or removal of its endpoint was a Join's add
      (or it was loaded and never removed), and it is that record, with the last hostname given
      to it since. */
  lemma {:induction false} RecordIsLastWord(w: World, steps: seq<Step>, ep: EndpointId)
    ensures Word(After(w, steps), ep) == LastWord(w, steps, ep)
  {
    hide Apply;
    if steps != [] {
      var init := steps[..|steps| - 1];
      RecordIsLastWord(w, init, ep);
      LastWordStep(After(w, init), steps[|steps| - 1], ep);
    }
  }

  lemma LastWordStep(v: World, step: Step, ep: EndpointId)
    ensures Word(Apply(v, step), ep) == NextWord(v, step, ep, Word(v, ep))
  {
    hide Apply, NextWord, Word;
    match step
    case Crash => WordFromDisk(v, ep);
    case WriteState(k, ok, entries) => WordUnwritten(v, k, ok, entries, ep);
    case _ => WordOfStep(v, step, ep);
  }

  lemma WordFromDisk(v: World, ep: EndpointId)
    ensures Word(Apply(v, Crash), ep) == NextWord(v, Crash, ep, Word(v, ep))
  {
    hide Only, RoleFrom, Started, KeepsLooking, KeepsRestoring, Moves, KeepsMarked, KeepsCreating;
  }

  lemma WordUnwritten(v: World, k: nat, ok: bool, entries: seq<EndpointRecord>, ep: EndpointId)
    ensures var step := WriteState(k, ok, entries);
      Word(Apply(v, step), ep) == NextWord(v, step, ep, Word(v, ep))
  {
    hide Only, RoleFrom, Started, KeepsLooking, KeepsRestoring, Moves, KeepsMarked, KeepsCreating;
  }

  lemma WordOfStep(v: World, step: Step, ep: EndpointId)
    requires !step.Crash? && !step.WriteState?
    ensures Word(Apply(v, step), ep) == NextWord(v, step, ep, Word(v, ep))
  {
    hide Apply;
    RecordSteps(v, step);
  }

  /** No step but a Join's own add, or reading the disk after a crash, brings a record into
      being: a late Join thread, a hostname update or a Restore cannot. */
  lemma OnlyJoinAdds(w: World, step: Step, ep: EndpointId)
    requires ep !in w.tables.records && ep in Apply(w, step).tables.records
    ensures step.Crash? || (step.Persist? && CanPersist(w, step.t) && w.roles[step.t].req.ep == ep)
  {
    hide Apply;
    LastWordStep(w, step, ep);
  }
}
