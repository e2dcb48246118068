/** state.json against the records in memory, with any number of saves pending at once. */
module Disk {
  import opened Types
  import opened TableOps
  import opened Protocol
  import opened StateFile
  import opened Records

  // -------------------------------------------------------------------------
  // The file is never a blend
  // -------------------------------------------------------------------------

  /** The records really were `t` at some point of the run. */
  ghost predicate Was(w: World, steps: seq<Step>, t: StateTable) {
    exists i | 0 <= i <= |steps| :: After(w, steps[..i]).tables.records == t
  }

  lemma WasBefore(w: World, steps: seq<Step>, t: StateTable)
    requires steps != [] && Was(w, steps[..|steps| - 1], t)
    ensures Was(w, steps, t)
  {
    var init := steps[..|steps| - 1];
    var i :| 0 <= i <= |init| && After(w, init[..i]).tables.records == t;
    assert init[..i] == steps[..i];
  }

  lemma WasNow(w: World, steps: seq<Step>)
    ensures Was(w, steps, After(w, steps).tables.records)
  {
    assert steps[..|steps|] == steps;
  }

  /** New saves are of the table in memory, and the file changes only to a listing of the
      table of a pending save. */
  ghost predicate WritesTables(w: World, w': World, step: Step) {
    (forall k | k in w'.stateWrites ::
      w'.stateWrites[k] == w'.tables.records || (k in w.stateWrites && w'.stateWrites[k] == w.stateWrites[k])) &&
    (w'.stateFile == w.stateFile ||
      (step.WriteState? && step.w in w.stateWrites && Lists(w'.stateFile, StampAll(w.stateWrites[step.w]))))
  }

  lemma WriteEffect(w: World, step: Step)
    ensures WritesTables(w, Apply(w, step), step)
  {
    hide Apply, WritesTables;
    match step
    case Crash => CrashEffect(w);
    case WriteState(k, ok, entries) => OneWriteEffect(w, k, ok, entries);
    case _ => OtherEffect(w, step);
  }

  lemma CrashEffect(w: World)
    ensures WritesTables(w, Apply(w, Crash), Crash)
    ensures Apply(w, Crash).tables.records == Load(w.stateFile)
  {
    hide Only, RoleFrom, Started, KeepsLooking, KeepsRestoring, Moves, KeepsMarked, KeepsCreating;
  }

  lemma OneWriteEffect(w: World, k: nat, ok: bool, entries: seq<EndpointRecord>)
    ensures WritesTables(w, Apply(w, WriteState(k, ok, entries)), WriteState(k, ok, entries))
  {
    hide Only, RoleFrom, Started, KeepsLooking, KeepsRestoring, Moves, KeepsMarked, KeepsCreating;
  }

  lemma OtherEffect(w: World, step: Step)
    requires !step.Crash? && !step.WriteState?
    ensures WritesTables(w, Apply(w, step), step)
  {
    hide Apply, RecordsAfter, Snapshots;
    RecordSteps(w, step);
  }

  /** Whatever the order of the saves, and whatever fails, the file is the one the process
      found, or lists the whole table that memory held at some point of the run. */
  lemma {:induction false} NeverABlend(w: World, steps: seq<Step>)
    requires w.stateWrites == map[]
    ensures var v := After(w, steps);
      (forall k | k in v.stateWrites :: Was(w, steps, v.stateWrites[k])) &&
      (v.stateFile == w.stateFile || exists t :: Was(w, steps, t) && Lists(v.stateFile, StampAll(t)))
  {
    if steps != [] {
      var init, step := steps[..|steps| - 1], steps[|steps| - 1];
      var u := After(w, init);
      NeverABlend(w, init);
      WriteEffect(u, step);
      WasNow(w, steps);
      var v := Apply(u, step);
      assert v == After(w, steps);
      hide Apply, After, Was;
      forall k | k in v.stateWrites ensures Was(w, steps, v.stateWrites[k]) {
        if v.stateWrites[k] != v.tables.records {
          WasBefore(w, steps, v.stateWrites[k]);
        }
      }
      if v.stateFile != u.stateFile {
        WasBefore(w, steps, u.stateWrites[step.w]);
      } else if u.stateFile != w.stateFile {
        var t :| Was(w, init, t) && Lists(u.stateFile, StampAll(t));
        WasBefore(w, steps, t);
      }
    }
  }

  // -------------------------------------------------------------------------
  // The file is the last table saved
  // -------------------------------------------------------------------------

  /** What the file holds once loaded. */
  function OnDisk(w: World): StateTable {
    Load(w.stateFile)
  }

  /** A pending save succeeds. */
  predicate Saves(w: World, step: Step) {
    step.WriteState? && step.ok && step.w in w.stateWrites && Lists(step.entries, StampAll(w.stateWrites[step.w]))
  }

  /** The table of the last save that succeeded, or what was on disk before any. */
  function LastSaved(w: World, steps: seq<Step>): StateTable {
    if steps == [] then Load(w.stateFile)
    else
      var init, step := steps[..|steps| - 1], steps[|steps| - 1];
      if Saves(After(w, init), step) then After(w, init).stateWrites[step.w] else LastSaved(w, init)
  }

  lemma SaveEffect(w: World, step: Step)
    requires KeyedRecords(w)
    ensures if Saves(w, step) then Alike(OnDisk(Apply(w, step)), w.stateWrites[step.w])
            else Apply(w, step).stateFile == w.stateFile
  {
    hide Apply, WritesTables;
    match step
    case WriteState(k, ok, entries) => WriteOnDisk(w, k, ok, entries);
    case _ => UnwrittenOnDisk(w, step);
  }

  lemma UnwrittenOnDisk(w: World, step: Step)
    requires !step.WriteState?
    ensures Apply(w, step).stateFile == w.stateFile
  {
    hide Apply;
    WriteEffect(w, step);
  }

  lemma WriteOnDisk(w: World, k: nat, ok: bool, entries: seq<EndpointRecord>)
    requires KeyedRecords(w)
    ensures var step := WriteState(k, ok, entries);
      if Saves(w, step) then Alike(OnDisk(Apply(w, step)), w.stateWrites[k])
      else Apply(w, step).stateFile == w.stateFile
  {
    hide Lists, StampAll, Load, Reloads, Alike;
    hide Only, RoleFrom, Started, KeepsLooking, KeepsRestoring, Moves, KeepsMarked, KeepsCreating;
    if Saves(w, WriteState(k, ok, entries)) {
      RoundTrip(entries, w.stateWrites[k]);
      ReloadsAlike(Load(entries), w.stateWrites[k]);
    }
  }

  lemma AlikeSelf(t: StateTable)
    ensures Alike(t, t)
  {
  }

  lemma ReloadsAlike(a: StateTable, b: StateTable)
    requires Reloads(a, b)
    ensures Alike(a, b)
  {
  }

  /** In every state of every run, whatever order the saves took and whatever failed or
      crashed, the file holds the last table saved: every record, field by field. */
  lemma {:induction false} FileIsLastSaved(w: World, steps: seq<Step>)
    requires KeyedRecords(w)
    ensures Alike(OnDisk(After(w, steps)), LastSaved(w, steps))
  {
    hide Apply, KeyedRecords, Saves, Alike, Reloads, Load;
    if steps == [] {
      AlikeSelf(OnDisk(w));
    } else {
      var init := steps[..|steps| - 1];
      FileIsLastSaved(w, init);
      KeyedRun(w, init);
      SaveEffect(After(w, init), steps[|steps| - 1]);
    }
  }

  /** Disk and memory agree, and so a restart changes nothing but the schema version, if and
      only if the table of the last successful save is the one in memory. */
  lemma DiskIsMemoryIff(w: World, steps: seq<Step>)
    requires KeyedRecords(w)
    ensures var v := After(w, steps);
      var agree := Alike(LastSaved(w, steps), v.tables.records);
      (Alike(OnDisk(v), v.tables.records) <==> agree) &&
      (Alike(Apply(v, Crash).tables.records, v.tables.records) <==> agree)
  {
    hide Apply, After, Alike;
    var v := After(w, steps);
    FileIsLastSaved(w, steps);
    AlikeTrans(OnDisk(v), LastSaved(w, steps), v.tables.records);
    CrashEffect(v);
  }

  // -------------------------------------------------------------------------
  // Saves in snapshot order
  // -------------------------------------------------------------------------

  /** A save succeeds and no older snapshot is still waiting for the lock. */
  ghost predicate InOrder(w: World, step: Step) {
    step.WriteState? && step.w in w.stateWrites ==>
      step.ok && forall k | k in w.stateWrites :: step.w <= k
  }

  ghost predicate InOrderRun(w: World, steps: seq<Step>) {
    forall i | 0 <= i < |steps| :: InOrder(After(w, steps[..i]), steps[i])
  }

  ghost predicate Newest(taken: map<nat, StateTable>, k: nat) {
    k in taken && forall j | j in taken :: j <= k
  }

  /** The newest pending snapshot is memory; with none pending, the last table saved is. */
  ghost predicate UpToDate(w: World, saved: StateTable) {
    (forall k | k in w.stateWrites :: k < w.ticket) &&
    (forall k | Newest(w.stateWrites, k) :: w.stateWrites[k] == w.tables.records) &&
    (w.stateWrites == map[] ==> Alike(saved, w.tables.records))
  }

  ghost function SavedBy(w: World, step: Step, saved: StateTable): StateTable {
    if Saves(w, step) then w.stateWrites[step.w] else saved
  }

  lemma WriteInOrder(w: World, saved: StateTable, k: nat, ok: bool, entries: seq<EndpointRecord>)
    requires UpToDate(w, saved) && InOrder(w, WriteState(k, ok, entries))
    ensures var step := WriteState(k, ok, entries); UpToDate(Apply(w, step), SavedBy(w, step, saved))
  {
    hide UpToDate, Lists, Only, RoleFrom, Started, KeepsLooking, KeepsRestoring, Moves, KeepsMarked, KeepsCreating;
    if k in w.stateWrites && Lists(entries, StampAll(w.stateWrites[k])) {
      WrittenInOrder(w, DoWriteState(w, k, ok, entries), saved, k);
    }
  }

  lemma WrittenInOrder(w: World, v: World, saved: StateTable, k: nat)
    requires UpToDate(w, saved) && k in w.stateWrites && forall j | j in w.stateWrites :: k <= j
    requires v.stateWrites == w.stateWrites - {k}
    requires v.tables.records == w.tables.records && v.ticket == w.ticket
    ensures UpToDate(v, w.stateWrites[k])
  {
    if v.stateWrites == map[] {
      forall j | j in w.stateWrites ensures j == k {
        assert j != k ==> j in v.stateWrites;
      }
      assert Newest(w.stateWrites, k);
    }
    forall j | Newest(v.stateWrites, j) ensures v.stateWrites[j] == v.tables.records {
      assert j in w.stateWrites && k <= j;
      forall i | i in w.stateWrites ensures i <= j {
        if i != k {
          assert i in v.stateWrites;
        }
      }
      assert Newest(w.stateWrites, j);
    }
  }

  lemma CrashUpToDate(w: World, saved: StateTable)
    requires Alike(OnDisk(w), saved)
    ensures UpToDate(Apply(w, Crash), saved)
  {
    hide Only, RoleFrom, Started, KeepsLooking, KeepsRestoring, Moves, KeepsMarked, KeepsCreating;
  }

  lemma OtherUpToDate(w: World, saved: StateTable, step: Step)
    requires UpToDate(w, saved) && !step.Crash? && !step.WriteState?
    ensures UpToDate(Apply(w, step), saved)
  {
    hide Apply, RoleFrom, Started, KeepsLooking, KeepsRestoring, Moves, KeepsMarked, KeepsCreating;
    RecordSteps(w, step);
    StepFrame(w, step);
    var v := Apply(w, step);
    if Snapshots(w, step) {
      assert w.ticket in v.stateWrites;
    } else {
      UnsavedSame(w, step);
    }
  }

  lemma UnsavedSame(w: World, step: Step)
    requires !Snapshots(w, step)
    ensures RecordsAfter(w, step) == w.tables.records
  {
  }

  lemma UpToDateStep(w: World, saved: StateTable, step: Step)
    requires UpToDate(w, saved) && Alike(OnDisk(w), saved) && InOrder(w, step)
    ensures UpToDate(Apply(w, step), SavedBy(w, step, saved))
  {
    hide Apply, UpToDate, InOrder;
    match step
    case Crash => CrashUpToDate(w, saved);
    case WriteState(k, ok, entries) => WriteInOrder(w, saved, k, ok, entries);
    case _ => OtherUpToDate(w, saved, step);
  }

  lemma {:induction false} UpToDateRun(w: World, steps: seq<Step>)
    requires KeyedRecords(w) && UpToDate(w, Load(w.stateFile)) && InOrderRun(w, steps)
    ensures UpToDate(After(w, steps), LastSaved(w, steps))
  {
    hide Apply, UpToDate, InOrder, KeyedRecords, Saves;
    if steps != [] {
      var init := steps[..|steps| - 1];
      assert forall i | 0 <= i < |init| :: init[..i] == steps[..i];
      UpToDateRun(w, init);
      FileIsLastSaved(w, init);
      UpToDateStep(After(w, init), LastSaved(w, init), steps[|steps| - 1]);
    }
  }

  /** If saves take the lock in snapshot order and succeed, then whenever no save is pending
      the disk holds exactly the table in memory, up to the schema version. */
  lemma DiskEqualsMemory(w: World, steps: seq<Step>)
    requires KeyedRecords(w) && UpToDate(w, Load(w.stateFile)) && InOrderRun(w, steps)
    ensures var v := After(w, steps);
      v.stateWrites == map[] ==>
        Alike(OnDisk(v), v.tables.records) && Alike(Apply(v, Crash).tables.records, v.tables.records)
  {
    hide Apply, After;
    UpToDateRun(w, steps);
    DiskIsMemoryIff(w, steps);
  }

  lemma BootUpToDate(stateFile: seq<EndpointRecord>, netFile: seq<NetworkRecord>)
    ensures var w := Boot(stateFile, netFile); KeyedRecords(w) && UpToDate(w, Load(w.stateFile))
  {
    LoadSound(stateFile);
  }

  // -------------------------------------------------------------------------
  // A crash with saves pending
  // -------------------------------------------------------------------------

  /** The snapshots taken since the process started, by ticket. */
  ghost function Taken(w: World, steps: seq<Step>): map<nat, StateTable> {
    if steps == [] then map[]
    else
      var init, step := steps[..|steps| - 1], steps[|steps| - 1];
      var u := After(w, init);
      if step.Crash? then map[]
      else if Snapshots(u, step) then Taken(w, init)[u.ticket := Apply(u, step).tables.records] else Taken(w, init)
  }

  /** The ticket of the last save that succeeded since the process started. */
  function LastTicket(w: World, steps: seq<Step>): Option<nat> {
    if steps == [] then None
    else
      var init, step := steps[..|steps| - 1], steps[|steps| - 1];
      if step.Crash? then None
      else if Saves(After(w, init), step) then Some(step.w) else LastTicket(w, init)
  }

  predicate Later(last: Option<nat>, k: nat) {
    last.None? || last.value < k
  }

  /** Exactly the snapshots after the last one saved are pending. */
  ghost predicate Queue(w: World, taken: map<nat, StateTable>, last: Option<nat>) {
    (forall k | k in taken :: k < w.ticket) &&
    (last.Some? ==> last.value in taken) &&
    (forall k :: k in w.stateWrites <==> k in taken && Later(last, k)) &&
    (forall k | k in w.stateWrites :: w.stateWrites[k] == taken[k])
  }

  lemma QueueWrite(w: World, taken: map<nat, StateTable>, last: Option<nat>, k: nat, ok: bool,
                   entries: seq<EndpointRecord>)
    requires Queue(w, taken, last) && InOrder(w, WriteState(k, ok, entries))
    ensures var step := WriteState(k, ok, entries);
      Queue(Apply(w, step), taken, if Saves(w, step) then Some(k) else last) && (Saves(w, step) ==> Later(last, k))
  {
    hide Lists, StampAll, Only, RoleFrom, Started, KeepsLooking, KeepsRestoring, Moves, KeepsMarked, KeepsCreating;
  }

  lemma QueueOther(w: World, taken: map<nat, StateTable>, last: Option<nat>, step: Step)
    requires Queue(w, taken, last) && !step.Crash? && !step.WriteState?
    ensures var v := Apply(w, step);
      Queue(v, if Snapshots(w, step) then taken[w.ticket := v.tables.records] else taken, last)
  {
    hide Apply, RecordsAfter, Snapshots, RoleFrom, Started, KeepsLooking, KeepsRestoring, Moves, KeepsMarked,
      KeepsCreating;
    RecordSteps(w, step);
    StepFrame(w, step);
  }

  lemma {:induction false} QueueRun(w: World, steps: seq<Step>)
    requires w.stateWrites == map[] && InOrderRun(w, steps) && NoCrash(steps)
    ensures Queue(After(w, steps), Taken(w, steps), LastTicket(w, steps))
  {
    hide Apply, Queue, InOrder, Saves, Snapshots;
    if steps == [] {
      NothingQueued(w);
    } else {
      var init, step := steps[..|steps| - 1], steps[|steps| - 1];
      assert forall i | 0 <= i < |init| :: init[..i] == steps[..i];
      QueueRun(w, init);
      var u := After(w, init);
      if step.WriteState? {
        QueueWrite(u, Taken(w, init), LastTicket(w, init), step.w, step.ok, step.entries);
        NoSnapshot(u, step);
      } else {
        QueueOther(u, Taken(w, init), LastTicket(w, init), step);
        NoSave(u, step);
      }
    }
  }

  lemma NothingQueued(w: World)
    requires w.stateWrites == map[]
    ensures Queue(w, map[], None)
  {
  }

  lemma NoSnapshot(w: World, step: Step)
    requires step.WriteState?
    ensures !Snapshots(w, step)
  {
  }

  lemma NoSave(w: World, step: Step)
    requires !step.WriteState?
    ensures !Saves(w, step)
  {
  }

  lemma {:induction false} LastTaken(w: World, steps: seq<Step>)
    requires w.stateWrites == map[] && InOrderRun(w, steps) && NoCrash(steps)
    ensures LastTicket(w, steps).None? ==> LastSaved(w, steps) == Load(w.stateFile)
    ensures var last := LastTicket(w, steps);
      last.Some? ==> last.value in Taken(w, steps) && LastSaved(w, steps) == Taken(w, steps)[last.value]
  {
    hide Apply, Queue, InOrder, Saves, Snapshots;
    if steps != [] {
      var init, step := steps[..|steps| - 1], steps[|steps| - 1];
      assert forall i | 0 <= i < |init| :: init[..i] == steps[..i];
      LastTaken(w, init);
      QueueRun(w, init);
      SavedWasTaken(After(w, init), Taken(w, init), LastTicket(w, init), step);
    }
  }

  lemma SavedWasTaken(w: World, taken: map<nat, StateTable>, last: Option<nat>, step: Step)
    requires Queue(w, taken, last)
    ensures Saves(w, step) ==> !Snapshots(w, step) && step.w in taken && taken[step.w] == w.stateWrites[step.w]
    ensures last.Some? ==> last.value < w.ticket
  {
  }

  /** When saves take the lock in snapshot order and succeed, a process that dies with saves
      pending leaves the last snapshot before the pending ones, or the file it found if every
      snapshot it took is pending. */
  lemma CrashWithPending(w: World, steps: seq<Step>)
    requires KeyedRecords(w) && w.stateWrites == map[] && InOrderRun(w, steps) && NoCrash(steps)
    ensures var v, taken, last := After(w, steps), Taken(w, steps), LastTicket(w, steps);
      (forall k :: k in v.stateWrites <==> k in taken && Later(last, k)) &&
      (last.Some? ==> last.value in taken) &&
      Alike(Apply(v, Crash).tables.records, if last.Some? then taken[last.value] else Load(w.stateFile))
  {
    hide Apply, After, Taken, LastTicket, LastSaved;
    QueueRun(w, steps);
    LastTaken(w, steps);
    FileIsLastSaved(w, steps);
    CrashEffect(After(w, steps));
  }

  /** ... and the file never goes back to an earlier snapshot. */
  lemma {:induction false} NeverBackwards(w: World, steps: seq<Step>, n: nat)
    requires w.stateWrites == map[] && InOrderRun(w, steps) && NoCrash(steps) && n <= |steps|
    ensures var before, now := LastTicket(w, steps[..n]), LastTicket(w, steps);
      before.Some? ==> now.Some? && before.value <= now.value
  {
    hide Apply, Queue, InOrder, Saves, Snapshots;
    if n == |steps| {
      assert steps[..n] == steps;
    } else {
      var init, step := steps[..|steps| - 1], steps[|steps| - 1];
      assert forall i | 0 <= i < |init| :: init[..i] == steps[..i];
      assert init[..n] == steps[..n];
      NeverBackwards(w, init, n);
      QueueRun(w, init);
      LaterSaved(After(w, init), Taken(w, init), LastTicket(w, init), step);
    }
  }

  lemma LaterSaved(w: World, taken: map<nat, StateTable>, last: Option<nat>, step: Step)
    requires Queue(w, taken, last)
    ensures Saves(w, step) ==> Later(last, step.w)
  {
  }

  // -------------------------------------------------------------------------
  // The newest snapshot
  // -------------------------------------------------------------------------

  /** The ticket of the last snapshot taken since the process started. */
  function NewestTicket(w: World, steps: seq<Step>): Option<nat> {
    if steps == [] then None
    else
      var init, step := steps[..|steps| - 1], steps[|steps| - 1];
      if step.Crash? then None
      else if Snapshots(After(w, init), step) then Some(After(w, init).ticket)
      else NewestTicket(w, init)
  }

  /** Memory is the newest snapshot, and the last table saved is the snapshot it was saved from;
      before any snapshot, memory is what was loaded. */
  ghost predicate Stocked(w: World, taken: map<nat, StateTable>, newest: Option<nat>, last: Option<nat>,
                          saved: StateTable) {
    (forall k | k in taken :: k < w.ticket) &&
    (forall k | k in w.stateWrites :: k in taken && taken[k] == w.stateWrites[k]) &&
    (last.Some? ==> last.value in taken && taken[last.value] == saved) &&
    if newest.Some? then newest.value in taken && taken[newest.value] == w.tables.records
    else taken == map[] && Alike(saved, w.tables.records)
  }

  lemma StockedCrash(w: World, saved: StateTable)
    requires Alike(OnDisk(w), saved)
    ensures Stocked(Apply(w, Crash), map[], None, None, saved)
  {
    hide Only, RoleFrom, Started, KeepsLooking, KeepsRestoring, Moves, KeepsMarked, KeepsCreating;
  }

  lemma StockedWrite(w: World, taken: map<nat, StateTable>, newest: Option<nat>, last: Option<nat>, saved: StateTable,
                     k: nat, ok: bool, entries: seq<EndpointRecord>)
    requires Stocked(w, taken, newest, last, saved)
    ensures var step := WriteState(k, ok, entries);
      Stocked(Apply(w, step), taken, newest, if Saves(w, step) then Some(k) else last, SavedBy(w, step, saved))
  {
    hide Lists, StampAll, Only, RoleFrom, Started, KeepsLooking, KeepsRestoring, Moves, KeepsMarked, KeepsCreating;
  }

  lemma StockedOther(w: World, taken: map<nat, StateTable>, newest: Option<nat>, last: Option<nat>,
                     saved: StateTable, step: Step)
    requires Stocked(w, taken, newest, last, saved) && !step.Crash? && !step.WriteState?
    ensures var v := Apply(w, step);
      if Snapshots(w, step) then Stocked(v, taken[w.ticket := v.tables.records], Some(w.ticket), last, saved)
      else Stocked(v, taken, newest, last, saved)
  {
    hide Apply, RecordsAfter, Snapshots, StampAll, RoleFrom, Started, KeepsLooking, KeepsRestoring, Moves,
      KeepsMarked, KeepsCreating;
    RecordSteps(w, step);
    StepFrame(w, step);
    if !Snapshots(w, step) {
      UnsavedSame(w, step);
    }
  }

  /** Nothing was saved or snapshotted yet, and memory is what the file holds. */
  ghost predicate JustLoaded(w: World) {
    KeyedRecords(w) && w.stateWrites == map[] && Alike(OnDisk(w), w.tables.records)
  }

  lemma {:induction false} StockedRun(w: World, steps: seq<Step>)
    requires JustLoaded(w)
    ensures Stocked(After(w, steps), Taken(w, steps), NewestTicket(w, steps), LastTicket(w, steps), LastSaved(w, steps))
  {
    hide Apply, Stocked, Saves, Snapshots, OnDisk, KeyedRecords;
    if steps == [] {
      StockedLoaded(w);
    } else {
      var init, step := steps[..|steps| - 1], steps[|steps| - 1];
      StockedRun(w, init);
      var u := After(w, init);
      match step
      case Crash =>
        FileIsLastSaved(w, init);
        StockedCrash(u, LastSaved(w, init));
        NoSave(u, step);
      case WriteState(k, ok, entries) =>
        StockedWrite(u, Taken(w, init), NewestTicket(w, init), LastTicket(w, init), LastSaved(w, init), k, ok, entries);
        NoSnapshot(u, step);
      case _ =>
        StockedOther(u, Taken(w, init), NewestTicket(w, init), LastTicket(w, init), LastSaved(w, init), step);
        NoSave(u, step);
    }
  }

  lemma StockedLoaded(w: World)
    requires JustLoaded(w)
    ensures Stocked(w, map[], None, None, Load(w.stateFile))
  {
  }

  /** Memory is always the newest snapshot. So disk and memory agree whenever the last save that
      succeeded was of the newest snapshot, whatever failed or overtook whatever before; and
      they then agree on the very snapshot. */
  lemma SavedNewest(w: World, steps: seq<Step>)
    requires JustLoaded(w)
    ensures var v, newest := After(w, steps), NewestTicket(w, steps);
      (newest.Some? ==> newest.value in Taken(w, steps) && Taken(w, steps)[newest.value] == v.tables.records) &&
      (LastTicket(w, steps) == newest ==>
        Alike(OnDisk(v), v.tables.records) && Alike(Apply(v, Crash).tables.records, v.tables.records))
  {
    hide Apply, After, OnDisk, Taken, NewestTicket, LastTicket, LastSaved, KeyedRecords;
    StockedRun(w, steps);
    DiskIsMemoryIff(w, steps);
  }

  lemma BootJustLoaded(stateFile: seq<EndpointRecord>, netFile: seq<NetworkRecord>)
    ensures JustLoaded(Boot(stateFile, netFile))
  {
    LoadSound(stateFile);
  }
}
