/** networks.json against the network cache, with any number of saves pending at once. */
module NetDisk {
  import opened Types
  import opened TableOps
  import opened Protocol
  import opened StateFile

  // -------------------------------------------------------------------------
  // What a step does to the cache
  // -------------------------------------------------------------------------

  /** The step queues a save of the cache. */
  predicate Snapshots(w: World, step: Step) {
    DockerTells(w, step) || step.CreateNetwork? || (step.DeleteNetwork? && step.net in w.tables.networks)
  }

  function NetsAfter(w: World, step: Step): NetTable {
    if DockerTells(w, step) then AddNetwork(w.tables, NetworkRecordOf(step.net, step.answer.opts)).networks
    else if step.CreateNetwork? then AddNetwork(w.tables, NetworkRecordOf(step.net, step.opts)).networks
    else if step.DeleteNetwork? then w.tables.networks - {step.net}
    else w.tables.networks
  }

  ghost predicate Effect(w: World, v: World, step: Step) {
    v.tables.networks == NetsAfter(w, step) && v.netFile == w.netFile && w.ticket <= v.ticket &&
    v.netWrites == (if Snapshots(w, step) then w.netWrites[w.ticket := v.tables.networks] else w.netWrites) &&
    (Snapshots(w, step) ==> v.ticket == w.ticket + 1)
  }

  lemma Filled(w: World, v: World, step: Step)
    requires DockerTells(w, step)
    requires v.tables.networks == AddNetwork(w.tables, NetworkRecordOf(step.net, step.answer.opts)).networks
    requires v.netWrites == w.netWrites[w.ticket := v.tables.networks] && v.ticket == w.ticket + 1
    requires v.netFile == w.netFile
    ensures Effect(w, v, step)
  {
  }

  lemma Unfilled(w: World, v: World, step: Step)
    requires step.LookInDocker? && !DockerTells(w, step) && SameNets(w, v) && w.ticket == v.ticket
    ensures Effect(w, v, step)
  {
  }

  lemma FillEffect(w: World, t: Tid, net: NetworkId, answer: Answer)
    ensures Effect(w, Apply(w, LookInDocker(t, net, answer)), LookInDocker(t, net, answer))
  {
    hide Effect, AddNetwork, NetworkRecordOf, Only, RoleFrom, Started, KeepsLooking, KeepsRestoring, Moves,
      KeepsMarked, KeepsCreating;
    var step := LookInDocker(t, net, answer);
    if DockerTells(w, step) {
      Filled(w, DoLookInDocker(w, t, net, answer), step);
    } else {
      Unfilled(w, DoLookInDocker(w, t, net, answer), step);
    }
  }

  lemma CreateEffect(w: World, net: NetworkId, opts: NetOptions)
    ensures Effect(w, Apply(w, CreateNetwork(net, opts)), CreateNetwork(net, opts))
  {
    hide Only, RoleFrom, Started, KeepsLooking, KeepsRestoring, Moves, KeepsMarked, KeepsCreating;
  }

  lemma DeleteEffect(w: World, net: NetworkId)
    ensures Effect(w, Apply(w, DeleteNetwork(net)), DeleteNetwork(net))
  {
    hide Only, RoleFrom, Started, KeepsLooking, KeepsRestoring, Moves, KeepsMarked, KeepsCreating;
  }

  lemma QuietEffect(w: World, step: Step)
    requires !step.Crash? && Nets !in Touched(step)
    ensures Effect(w, Apply(w, step), step)
  {
    hide Apply, RoleFrom, Started, KeepsLooking, KeepsRestoring, Moves, KeepsMarked, KeepsCreating;
    StepFrame(w, step);
  }

  /** Every change of the cache is Docker's answer to a lookup, a CreateNetwork or a
      DeleteNetwork, and queues a save of exactly the cache it leaves. */
  lemma NetSteps(w: World, step: Step)
    requires !step.Crash? && !step.WriteNets?
    ensures Effect(w, Apply(w, step), step)
  {
    hide Apply, Effect;
    match step
    case LookInDocker(t, net, answer) => FillEffect(w, t, net, answer);
    case CreateNetwork(net, opts) => CreateEffect(w, net, opts);
    case DeleteNetwork(net) => DeleteEffect(w, net);
    case _ => QuietEffect(w, step);
  }

  lemma CrashEffect(w: World)
    ensures var v := Apply(w, Crash);
      v.tables.networks == LoadNets(w.netFile) && v.netWrites == map[] && v.netFile == w.netFile
  {
    hide Only, RoleFrom, Started, KeepsLooking, KeepsRestoring, Moves, KeepsMarked, KeepsCreating;
  }

  /** A pending save succeeds. */
  predicate Saves(w: World, step: Step) {
    step.WriteNets? && step.ok && step.w in w.netWrites && ListsNets(step.networks, w.netWrites[step.w])
  }

  lemma WriteEffect(w: World, k: nat, ok: bool, entries: seq<NetworkRecord>)
    ensures var step := WriteNets(k, ok, entries); var v := Apply(w, step);
      v.tables.networks == w.tables.networks && v.ticket == w.ticket &&
      v.netFile == (if Saves(w, step) then entries else w.netFile) &&
      forall j :: j in v.netWrites ==> j in w.netWrites && v.netWrites[j] == w.netWrites[j]
  {
    hide Only, RoleFrom, Started, KeepsLooking, KeepsRestoring, Moves, KeepsMarked, KeepsCreating;
  }

  // -------------------------------------------------------------------------
  // The cache is the last word
  // -------------------------------------------------------------------------

  /** What one step says about the cache entry of `net`, if `before` was the word so far. */
  function NextWord(w: World, step: Step, net: NetworkId, before: Option<NetworkRecord>): Option<NetworkRecord> {
    if step.Crash? then Find(LoadNets(w.netFile), net)
    else if DockerTells(w, step) && step.net == net then Some(Entry(net, step.answer.opts))
    else if step.CreateNetwork? && step.net == net then Some(Entry(net, step.opts))
    else if step.DeleteNetwork? && step.net == net then None
    else before
  }

  function Entry(net: NetworkId, opts: NetOptions): NetworkRecord {
    NetworkRecord(net, opts.bridge, if opts.mode == "" then "bridge" else opts.mode, opts.ipv6)
  }

  function LastWord(w: World, steps: seq<Step>, net: NetworkId): Option<NetworkRecord> {
    if steps == [] then Find(w.tables.networks, net)
    else
      var init := steps[..|steps| - 1];
      NextWord(After(w, init), steps[|steps| - 1], net, LastWord(w, init, net))
  }

  lemma WordStep(w: World, step: Step, net: NetworkId)
    ensures Find(Apply(w, step).tables.networks, net) == NextWord(w, step, net, Find(w.tables.networks, net))
  {
    hide Apply, NextWord;
    match step
    case Crash => CrashWord(w, net);
    case WriteNets(k, ok, entries) => WriteWord(w, k, ok, entries, net);
    case _ => OtherWord(w, step, net);
  }

  lemma CrashWord(w: World, net: NetworkId)
    ensures Find(Apply(w, Crash).tables.networks, net) == NextWord(w, Crash, net, Find(w.tables.networks, net))
  {
    hide Apply;
    CrashEffect(w);
  }

  lemma WriteWord(w: World, k: nat, ok: bool, entries: seq<NetworkRecord>, net: NetworkId)
    ensures var step := WriteNets(k, ok, entries);
      Find(Apply(w, step).tables.networks, net) == NextWord(w, step, net, Find(w.tables.networks, net))
  {
    hide Apply, Saves;
    WriteEffect(w, k, ok, entries);
  }

  lemma OtherWord(w: World, step: Step, net: NetworkId)
    requires !step.Crash? && !step.WriteNets?
    ensures Find(Apply(w, step).tables.networks, net) == NextWord(w, step, net, Find(w.tables.networks, net))
  {
    hide Apply, Snapshots, DockerTells;
    NetSteps(w, step);
    TellsMeans(w, step);
  }

  lemma TellsMeans(w: World, step: Step)
    ensures DockerTells(w, step) ==> step.LookInDocker? && step.answer.Options?
  {
  }

  /** In every state of every run, the cache has of a network exactly what Docker's last answer or
      its CreateNetwork said, with the mode filled in, unless a DeleteNetwork came since, or what
      was loaded. */
  lemma {:induction false} CacheIsLastWord(w: World, steps: seq<Step>, net: NetworkId)
    ensures Find(After(w, steps).tables.networks, net) == LastWord(w, steps, net)
  {
    hide Apply, NextWord;
    if steps != [] {
      CacheIsLastWord(w, steps[..|steps| - 1], net);
      WordStep(After(w, steps[..|steps| - 1]), steps[|steps| - 1], net);
    }
  }

  // -------------------------------------------------------------------------
  // The tables stay keyed
  // -------------------------------------------------------------------------

  ghost predicate KeyedCaches(w: World) {
    KeyedNets(w.tables.networks) && forall k | k in w.netWrites :: KeyedNets(w.netWrites[k])
  }

  lemma KeyedAfter(w: World, step: Step)
    requires KeyedNets(w.tables.networks)
    ensures KeyedNets(NetsAfter(w, step))
  {
  }

  lemma KeyedStep(w: World, step: Step)
    requires KeyedCaches(w)
    ensures KeyedCaches(Apply(w, step))
  {
    hide Apply, KeyedCaches;
    match step
    case Crash => KeyedCrash(w);
    case WriteNets(k, ok, entries) => KeyedWrite(w, k, ok, entries);
    case _ => KeyedOther(w, step);
  }

  lemma KeyedCrash(w: World)
    ensures KeyedCaches(Apply(w, Crash))
  {
    hide Apply;
    LoadNetsSound(w.netFile);
    CrashEffect(w);
  }

  lemma KeyedWrite(w: World, k: nat, ok: bool, entries: seq<NetworkRecord>)
    requires KeyedCaches(w)
    ensures KeyedCaches(Apply(w, WriteNets(k, ok, entries)))
  {
    hide Apply, Saves, KeyedNets;
    WriteEffect(w, k, ok, entries);
  }

  lemma KeyedOther(w: World, step: Step)
    requires KeyedCaches(w) && !step.Crash? && !step.WriteNets?
    ensures KeyedCaches(Apply(w, step))
  {
    hide Apply, NetsAfter, Snapshots, KeyedNets;
    KeyedAfter(w, step);
    NetSteps(w, step);
  }

  lemma {:induction false} KeyedRun(w: World, steps: seq<Step>)
    requires KeyedCaches(w)
    ensures KeyedCaches(After(w, steps))
  {
    hide Apply, KeyedCaches;
    if steps != [] {
      KeyedRun(w, steps[..|steps| - 1]);
      KeyedStep(After(w, steps[..|steps| - 1]), steps[|steps| - 1]);
    }
  }

  // -------------------------------------------------------------------------
  // The file is the last cache saved
  // -------------------------------------------------------------------------

  /** The cache of the last save that succeeded, or what was on disk before any. */
  function LastSaved(w: World, steps: seq<Step>): NetTable {
    if steps == [] then LoadNets(w.netFile)
    else
      var init, step := steps[..|steps| - 1], steps[|steps| - 1];
      if Saves(After(w, init), step) then After(w, init).netWrites[step.w] else LastSaved(w, init)
  }

  lemma SaveEffect(w: World, step: Step)
    requires KeyedCaches(w)
    ensures LoadNets(Apply(w, step).netFile) == if Saves(w, step) then w.netWrites[step.w] else LoadNets(w.netFile)
  {
    hide Apply, NetsAfter, Snapshots, ListsNets, LoadNets;
    match step
    case Crash => CrashEffect(w);
    case WriteNets(k, ok, entries) =>
      WriteEffect(w, k, ok, entries);
      if Saves(w, step) {
        RoundTripNets(entries, w.netWrites[k]);
      }
    case _ => NetSteps(w, step);
  }

  /** In every state of every run, whatever order the saves took and whatever failed or
      crashed, networks.json holds the last cache saved. */
  lemma {:induction false} FileIsLastSaved(w: World, steps: seq<Step>)
    requires KeyedCaches(w)
    ensures LoadNets(After(w, steps).netFile) == LastSaved(w, steps)
  {
    hide Apply, KeyedCaches, Saves;
    if steps != [] {
      var init := steps[..|steps| - 1];
      FileIsLastSaved(w, init);
      KeyedRun(w, init);
      SaveEffect(After(w, init), steps[|steps| - 1]);
    }
  }

  /** networks.json and the cache agree, and so a restart leaves the cache as it is, if and only
      if the last cache saved is the one in memory. */
  lemma DiskIsMemoryIff(w: World, steps: seq<Step>)
    requires KeyedCaches(w)
    ensures var v := After(w, steps);
      var agree := LastSaved(w, steps) == v.tables.networks;
      (LoadNets(v.netFile) == v.tables.networks <==> agree) &&
      (Apply(v, Crash).tables.networks == v.tables.networks <==> agree)
  {
    hide Apply, After;
    FileIsLastSaved(w, steps);
    CrashEffect(After(w, steps));
  }

  // -------------------------------------------------------------------------
  // The newest snapshot
  // -------------------------------------------------------------------------

  /** The ticket of the last snapshot taken since the process started. */
  function NewestTicket(w: World, steps: seq<Step>): Option<nat> {
    if steps == [] then None
    else
      var init, step := steps[..|steps| - 1], steps[|steps| - 1];
      if step.Crash? then None
      else if Snapshots(After(w, init), step) then Some(After(w, init).ticket)
      else NewestTicket(w, init)
  }

  /** The ticket of the last save that succeeded since the process started. */
  function LastTicket(w: World, steps: seq<Step>): Option<nat> {
    if steps == [] then None
    else
      var init, step := steps[..|steps| - 1], steps[|steps| - 1];
      if step.Crash? then None
      else if Saves(After(w, init), step) then Some(step.w)
      else LastTicket(w, init)
  }

  /** A pending or saved snapshot with the newest ticket is the cache in memory. */
  ghost predicate Stocked(w: World, newest: Option<nat>, last: Option<nat>, saved: NetTable) {
    (forall k | k in w.netWrites :: k < w.ticket && newest.Some?) &&
    (newest.Some? ==> newest.value < w.ticket) && (last.Some? ==> last.value < w.ticket && newest.Some?) &&
    (newest.Some? && newest.value in w.netWrites ==> w.netWrites[newest.value] == w.tables.networks) &&
    (newest == last ==> saved == w.tables.networks)
  }

  ghost predicate NextStocked(w: World, v: World, newest: Option<nat>, last: Option<nat>, saved: NetTable, step: Step) {
    Stocked(v,
      if step.Crash? then None else if Snapshots(w, step) then Some(w.ticket) else newest,
      if step.Crash? then None else if Saves(w, step) then Some(step.w) else last,
      if Saves(w, step) then w.netWrites[step.w] else saved)
  }

  lemma StockedCrash(w: World, newest: Option<nat>, last: Option<nat>, saved: NetTable)
    requires LoadNets(w.netFile) == saved
    ensures NextStocked(w, Apply(w, Crash), newest, last, saved, Crash)
  {
    hide Apply, LoadNets, ListsNets;
    CrashEffect(w);
  }

  lemma StockedWrite(w: World, newest: Option<nat>, last: Option<nat>, saved: NetTable,
                     k: nat, ok: bool, entries: seq<NetworkRecord>)
    requires Stocked(w, newest, last, saved)
    ensures var step := WriteNets(k, ok, entries); NextStocked(w, Apply(w, step), newest, last, saved, step)
  {
    hide Apply, LoadNets, ListsNets;
    WriteEffect(w, k, ok, entries);
  }

  lemma StockedOther(w: World, newest: Option<nat>, last: Option<nat>, saved: NetTable, step: Step)
    requires Stocked(w, newest, last, saved) && !step.Crash? && !step.WriteNets?
    ensures NextStocked(w, Apply(w, step), newest, last, saved, step)
  {
    hide Apply, LoadNets, ListsNets, NetsAfter, Snapshots;
    NetSteps(w, step);
    UnsavedSame(w, step);
  }

  lemma StockedStep(w: World, newest: Option<nat>, last: Option<nat>, saved: NetTable, step: Step)
    requires Stocked(w, newest, last, saved) && LoadNets(w.netFile) == saved
    ensures NextStocked(w, Apply(w, step), newest, last, saved, step)
  {
    hide Apply, LoadNets, NextStocked, Stocked;
    match step
    case Crash => StockedCrash(w, newest, last, saved);
    case WriteNets(k, ok, entries) => StockedWrite(w, newest, last, saved, k, ok, entries);
    case _ => StockedOther(w, newest, last, saved, step);
  }

  lemma UnsavedSame(w: World, step: Step)
    ensures !Snapshots(w, step) ==> NetsAfter(w, step) == w.tables.networks
  {
  }

  /** Nothing was saved or snapshotted yet, and the cache is what the file holds. */
  ghost predicate JustLoaded(w: World) {
    KeyedCaches(w) && w.netWrites == map[] && LoadNets(w.netFile) == w.tables.networks
  }

  lemma {:induction false} StockedRun(w: World, steps: seq<Step>)
    requires JustLoaded(w)
    ensures Stocked(After(w, steps), NewestTicket(w, steps), LastTicket(w, steps), LastSaved(w, steps))
  {
    hide Apply, Saves, Snapshots, KeyedCaches;
    if steps != [] {
      var init := steps[..|steps| - 1];
      StockedRun(w, init);
      FileIsLastSaved(w, init);
      StockedStep(After(w, init), NewestTicket(w, init), LastTicket(w, init), LastSaved(w, init), steps[|steps| - 1]);
      hide Stocked;
    }
  }

  /** networks.json and the cache agree whenever the last save that succeeded was of the newest
      snapshot, whatever failed or overtook whatever before. */
  lemma SavedNewest(w: World, steps: seq<Step>)
    requires JustLoaded(w) && LastTicket(w, steps) == NewestTicket(w, steps)
    ensures var v := After(w, steps);
      LoadNets(v.netFile) == v.tables.networks == Apply(v, Crash).tables.networks
  {
    hide Apply, After, NewestTicket, LastTicket, LastSaved, KeyedCaches;
    StockedRun(w, steps);
    DiskIsMemoryIff(w, steps);
  }

  lemma BootJustLoaded(stateFile: seq<EndpointRecord>, netFile: seq<NetworkRecord>)
    ensures JustLoaded(Boot(stateFile, netFile))
  {
    LoadNetsSound(netFile);
  }
}
