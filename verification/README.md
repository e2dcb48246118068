# docker-network-dhcp: a model of the plugin core

A Dafny model of the four files of `pkg/plugin` that carry the plugin's state: the endpoint
lifecycle, the lease engine of one endpoint, persistence, and the bridge conflict scan.
`dafny verify dfyconfig.toml` checks all of it.

How it is laid out:

- `Types`, `TableOps`: the records, and every critical section of `mu` as a function on the six
  tables. `PluginObject` is the plugin object itself: its methods update the fields and are proved
  against these functions.
- `Protocol`: all handlers, Join's background threads, Restore and the disk writers as one state
  machine. A step is one critical section, one save, or one outcome of the kernel, udhcpc or
  Docker. Any number of threads of any kind may run. `Apply` is total (an impossible step changes
  nothing), so a run is any sequence of steps, and `Crash` restarts the process from the files.
- `Progress`, `RestoreTale`, `CreateTale`, `JoinHistory`, `Ownership`, `Bookkeeping`, `MarkHistory`,
  `ManagerHistory`, `Records`, `Coherence`, `OptionHistory`, `Carry`, `Hints`, `HintHistory`, `Disk`,
  `NetDisk`: what holds in every state of every run of `Protocol`. `ProgramOrder`, `Scenarios`:
  concrete runs of the program, in which no thread goes on while its own save is pending, and the
  code does less than its comments say.
- `Lease` (what the event stream does to addresses, flags and routes), `DhcpManager` (the object,
  proved against it), `Rendezvous` (the hand-off of results between the event loops and `Stop`).
- `Latch`: a bit set and cleared by the events of a history.
- `StateFile`: encoding, loading, and the sequence of file operations of a save.
- `Cidr`, `ConflictScan`: prefixes, and the scan of CreateNetwork. `Routes`: what Join copies from
  the host bridge.

What the proofs show about the code, where it and its comments or documentation differ:

- A Join commit does not look for a manager that is already registered (`network.go:791`), while
  Restore does (`plugin.go:547`). A manager runs for ever, unknown to the tables, exactly when a Join
  commit displaced it (`LostIffDisplaced`; a run is given by `JoinDisplacesRestored`).
- Leave's mark (`network.go:853`) is erased by Leave's own deferred removal (`plugin.go:277`). A Join
  thread that commits after it registers a manager for an endpoint that has left
  (`LateJoinSurvivesLeave`). A commit is discarded exactly if a Leave has marked the endpoint and no
  removal of it, commit or crash has come since (`DiscardedIffMarked`); the same holds of Restore
  (`RestoredIffUnmarked`, `LateRestoreSurvivesLeave`). `ManagedIff` says exactly when an endpoint is
  still managed.
- `saveMu` orders writes, not snapshots: contrary to the comment at `plugin.go:123-126`, an older
  snapshot can be written last, and a restart then brings a removed record back
  (`OlderSnapshotWins`). Disk and memory agree exactly if the last table saved is the one in memory
  (`DiskIsMemoryIff`): whenever the last save that succeeded was of the newest snapshot
  (`SavedNewest`), and so always with saves in snapshot order (`DiskEqualsMemory`).
- Hints are linear, but one CreateEndpoint call can produce two of them if a Join overtakes it
  (`OvertakingJoin`); with calls for one endpoint kept apart it cannot (`JoinsNeverOutnumberCreates`).
  For any order of calls, `TwiceIff` says exactly when a call produces two hints,
  `JoinsWithinCallsIff` that this is exactly when Joins can exceed the calls that produced one, and
  `LocatableIff` when the record that results lacks its interface index.
- The repository's README documents `lease_timeout` and `skip_routes`; a call sees them exactly if it
  missed the cache and Docker answered it with them (`SeenIff`), so once a network is cached no new
  call does (`CacheForgets`).
- A second `Stop` of one manager waits for ever (`SecondStopWaitsForever`), and `Stop` returns on an
  IPv4 error while the IPv6 loop still runs (`EarlyReturn`), and exactly then without its result
  (`EarlyIff`).
- A bridge whose first default route is on-link makes Join answer with the text of a missing
  address when DHCP gave no gateway (`NilGatewayIff`).
- A restored manager without an IPv6 address dies on its first IPv6 lease (`MissingAddressPanics`).
- A subnet that does not parse makes the conflict scan depend on list order (`BadSubnetHidesConflict`).

## Model

| member | source | states |
|---|---|---|
| Protocol.StepFrame | pkg/plugin/plugin.go:107-131 | every step of a living process touches only the tables declared for it and the state of its own thread; request, options and hint are carried along a thread; a lookup yields an option set from one of the three sources |
| Protocol.RecordSteps | pkg/plugin/plugin.go:229-293 | every change of the endpoint records is a Join's add, a hostname or a removal, and queues a save of exactly the table it leaves; removing an absent record queues none |
| Progress.NeverStuck | pkg/plugin/network.go:667-858 | in every state of every run, crashes included, every thread has a step of its own to take: no handler, background thread or Restore waits for another |
| Progress.StepsBounded | pkg/plugin/plugin.go:375-425 | and each takes at most as many steps as its point leaves it, whatever the others do |
| Progress.FewSteps | pkg/plugin/plugin.go:375-412 | at most sixteen for a handler with its background thread, and forty-two per endpoint and one for a Restore |
| Progress.HoldsItsOwn | pkg/plugin/network.go:772-792 | in every state of every run a thread that holds a manager is a background thread, a Leave or a Restore at work on the endpoint of that manager |
| Progress.MayEndEarly | pkg/plugin/network.go:724-736 | a Join whose routes fail ends with its hint gone and no record, and a cancelled Restore leaves everything as it is |
| RestoreTale.TaleRun | pkg/plugin/plugin.go:379-425 | in every state of every run, where a Restore stands is what has happened to its endpoints: served, or so many failures to start or marks met |
| RestoreTale.BeginsWithEachOnce | pkg/plugin/plugin.go:361-366 | a Restore begins with each record of the table once |
| RestoreTale.DropsAfterFour | pkg/plugin/plugin.go:393-421 | under any interleaving a Restore drops a record only after four attempts on that endpoint, each of which failed to start or was given up to a mark |
| RestoreTale.EndsWithAll | pkg/plugin/plugin.go:379-431 | a Restore that ends has dealt with every endpoint of its snapshot, in order |
| RestoreTale.LosesTheRace | pkg/plugin/plugin.go:543-559 | a Restore whose commit finds a manager stops its own and goes on to the next endpoint with the record untouched; one that finds a mark stops its own and has failed |
| Ownership.StepKeeps | pkg/plugin/network.go:772-845 | every step of every thread keeps the ownership invariant, and the managers lost after it are those lost before it and the one a Join commit displaces |
| Ownership.OneFate | pkg/plugin/network.go:782-845 | in every state of every run within one life of the process a manager is in exactly one of four conditions: held by exactly one thread, registered under its own endpoint, lost, or ended with everything closed once and stopped once if it ran |
| Ownership.LostIffDisplaced | pkg/plugin/network.go:782-792 | a manager is lost in a run within one life of the process if and only if some Join commit of that run found it in the slot it took; no Restore commit loses one |
| Ownership.HandleBalance | pkg/plugin/dhcp_manager.go:405-463 | open namespace and netlink handles are those of threads in the middle of a start or stop, of registered managers and of lost ones, counted exactly |
| Ownership.NoLeakWithoutDisplacement | pkg/plugin/plugin.go:543-561 | in a run within one life of the process, without a displacing commit, no manager is lost, and the open namespace and netlink handles are the in-flight and the registered ones |
| Ownership.CommitRestoreKeeps | pkg/plugin/plugin.go:546-561 | Restore's commit keeps ownership in all three outcomes and never displaces |
| Ownership.EnterLeaveKeeps | pkg/plugin/network.go:831-854 | Leave's first section hands the registered manager from the table to the leaving thread, and touches no manager if there is none; ownership is kept and nothing lost |
| Ownership.BootOwned | pkg/plugin/plugin.go:173-184 | a process that has just started satisfies the invariant and has lost nothing |
| Bookkeeping.BoundedRun | pkg/plugin/network.go:761-770 | in every run each left-mark belongs to a Leave between its mark and its deferred removal, and each cancel entry to a Join thread that has registered it and not finished |
| Bookkeeping.MarksOnlyInWindow | pkg/plugin/network.go:829-854 | so a commit sees a mark only in that window, and both tables are empty when nothing is in flight |
| MarkHistory.MarkIff | pkg/plugin/network.go:847-853 | in every state of every run an endpoint is marked exactly if a Leave without a manager marked it and no removal, consuming commit or crash came since, and its cancel entry is there exactly if a Join thread registered one and no Join thread of it ended, and no such Leave came, since |
| MarkHistory.DiscardedIffMarked | pkg/plugin/network.go:782-792 | a Join commit is discarded exactly if such a mark stands, and otherwise its manager takes the slot |
| MarkHistory.RestoredIffUnmarked | pkg/plugin/plugin.go:546-561 | a Restore commit finds the slot occupied exactly if a manager is there; otherwise it gives its manager up exactly if such a mark stands, and takes the slot exactly if none does |
| ManagerHistory.ManagedIff | pkg/plugin/network.go:782-845 | in every state of every run an endpoint has a manager in the table exactly if a Join or Restore commit registered one and no Leave of it and no crash came since, and has one without a record exactly if moreover no record was added since the last removal |
| Records.RecordIsLastWord | pkg/plugin/network.go:738-749 | in every run, crashes included, the record of an endpoint is the one of the last Join add with the last hostname given since, none if a removal came later, or what was loaded |
| Records.OnlyJoinAdds | pkg/plugin/plugin.go:247-264 | only a Join's own add, or reading the disk at start, brings a record into being; a late thread, a hostname update or Restore cannot |
| JoinHistory.AskedRun | pkg/plugin/network.go:667-689 | in every state of every run a thread works on the network, endpoint and sandbox its call named |
| JoinHistory.RecordAsAsked | pkg/plugin/network.go:741-749 | the record a Join adds has the network, endpoint and sandbox of its call, bridge, mode and IPv6 of its options, the index of its hint and no hostname |
| Records.KeyedRun | pkg/plugin/plugin.go:231-252 | every table in memory and in pending saves stays keyed by the records' own IDs |
| Records.ReachableRoundTrip | pkg/plugin/state.go:158-180 | in every state of every run, loading a save of the table returns every record with every field as it was and schema version 1, whatever order it was listed in |
| Records.KeptStep | pkg/plugin/state.go:142-180 | a property of records that ignores hostname and version and that each added record has holds in memory, in pending saves and on disk after every step |
| Coherence.CoherentRun | pkg/plugin/network.go:168-229 | if Docker's options never change, cache, pending saves, both files, records and every thread's options agree with Docker in every run, crashes included |
| Coherence.SourcesAgree | pkg/plugin/network.go:203-226 | so cache and records give Docker's bridge, normalised mode and IPv6 flag, and the fallback answers alike whichever record the map iteration meets first |
| Coherence.FirstBootCoherent | pkg/plugin/plugin.go:154-171 | a first boot with nothing on disk is coherent with any Docker |
| Coherence.CacheForgets | pkg/plugin/network.go:169-183 | once a network is cached and no call that asked Docker before is in flight, every call on it works with no lease timeout and without skip_routes until it is deleted or the process restarts |
| OptionHistory.SeenIff | pkg/plugin/network.go:168-229 | in every state of every run, with no assumption on calls in flight, a call works with exactly the options Docker told it, if any; it sees a lease timeout or skip_routes if and only if Docker answered this very call with one, and never if it found the network in the cache |
| OptionHistory.SourcesInOrder | pkg/plugin/network.go:168-229 | in every state of every run a call asks the cache first, Docker exactly if that missed, and the records exactly if Docker did not answer; it goes on exactly if one of them had the options, with the fields found there |
| Carry.CarriesRun | pkg/plugin/network.go:264-297 | with at most one CreateEndpoint or Join per endpoint at a time, every hint nobody is still writing is complete, in every run |
| Carry.FactsCarried | pkg/plugin/plugin.go:608-616 | so every macvlan or ipvlan record, in memory, on disk and in Restore's list, has a nonzero interface index, and every Join thread has an IPv4 address, and an IPv6 one when the network has IPv6 |
| Carry.FirstBootCarries | pkg/plugin/plugin.go:173-184 | the first boot satisfies the hypothesis of the two runs above |
| Hints.HintsConserved | pkg/plugin/network.go:704-709 | in every run, hints at the start plus hints created are hints taken by Joins plus hints dropped plus the one still there |
| Hints.HintStep | pkg/plugin/network.go:282-294 | the same balance for each single step |
| Hints.JoinsNeverOutnumberCreates | pkg/plugin/network.go:406-444 | with orderly calls, Joins past the hint check plus dropped hints plus the one left never exceed the CreateEndpoint calls of the endpoint |
| HintHistory.HintIff | pkg/plugin/network.go:282-294 | in every state of every run, with no assumption on call order, a hint is there exactly if a part of it was written since the last take or drop, and has an index, an IPv4 or an IPv6 address exactly if that part was |
| HintHistory.HintValues | pkg/plugin/network.go:282-294 | in every state of every run the index, IPv4 address, gateway and IPv6 address of a hint are those of the last read or lease since the last take or drop |
| HintHistory.TakenHintExact | pkg/plugin/network.go:704-712 | what a Join and its background thread know is exactly what was written between the take or drop before and this take |
| HintHistory.TakenValues | pkg/plugin/network.go:704-722 | and a Join and its background thread have those very values, the gateway of the lease included |
| HintHistory.LocatableIff | pkg/plugin/network.go:741-749 | the record a Join is about to persist can be located by Restore if and only if it is bridged or the index was read since the previous take or drop when this Join took the hint |
| HintHistory.ProducersWithinCalls | pkg/plugin/network.go:324-369 | in every run the calls that have put a hint into an empty slot, plus those in flight that have not, never exceed the calls |
| HintHistory.JoinsWithinCallsIff | pkg/plugin/network.go:406-444 | in every run, the calls that produced a hint never exceed the CreateEndpoint calls, and Joins past the hint check plus drops plus the hint left stay within the calls that produced one if and only if no call produced two |
| HintHistory.TwiceIff | pkg/plugin/network.go:282-294 | a call produces a second hint exactly if it writes again and nothing was written since a Join took, or something dropped, what was there |
| CreateTale.TaleRun | pkg/plugin/network.go:299-445 | in every state of every run, where a CreateEndpoint stands is what has happened in it: it drops a hint only after its link was made and something failed, reads the index exactly off a bridge, and asks for an IPv6 lease only with IPv6 |
| Disk.NeverABlend | pkg/plugin/plugin.go:235-237 | for any order of saves and any failures, the file is the one found at the start or lists the whole table memory held at some point of the run |
| Disk.FileIsLastSaved | pkg/plugin/plugin.go:235-237 | in every state of every run, with no assumption on order, success or crashes, the file holds the table of the last save that succeeded, every field of every record but the version |
| Disk.DiskIsMemoryIff | pkg/plugin/plugin.go:229-244 | so disk and memory agree in every field, and a restart changes nothing but the schema version, if and only if the last table saved is the one in memory |
| Disk.SavedNewest | pkg/plugin/plugin.go:229-244 | memory is always the newest snapshot taken, so disk and memory agree whenever the last save that succeeded was of the newest snapshot, whatever failed or overtook whatever before |
| Disk.UpToDateRun | pkg/plugin/plugin.go:123-126 | if saves succeed and take the lock in snapshot order, the newest pending snapshot is the table in memory, and with none pending the last table saved is, crashes included |
| Disk.DiskEqualsMemory | pkg/plugin/plugin.go:229-244 | so with no save pending the disk equals memory up to the schema version, and a restart loads that table |
| Disk.CrashWithPending | pkg/plugin/plugin.go:230-237 | with saves in snapshot order, the pending ones are exactly the snapshots after the last saved one, and a process that dies leaves that one, or the file it found if all are pending |
| Disk.NeverBackwards | pkg/plugin/plugin.go:123-126 | and the file never goes back to an earlier snapshot |
| Disk.BootUpToDate | pkg/plugin/plugin.go:154-160 | a process that has just loaded its file satisfies the hypothesis |
| NetDisk.NetSteps | pkg/plugin/plugin.go:304-344 | every change of the network cache is Docker's answer to a lookup, a CreateNetwork or a DeleteNetwork, and queues a save of exactly the cache it leaves |
| NetDisk.CacheIsLastWord | pkg/plugin/network.go:193-199 | in every state of every run the cache has of a network exactly what Docker's last answer or its CreateNetwork said, with the mode filled in, unless it was deleted since, or what was loaded |
| NetDisk.FileIsLastSaved | pkg/plugin/plugin.go:312-314 | in every state of every run, whatever order, failures and crashes, networks.json holds the last cache saved |
| NetDisk.DiskIsMemoryIff | pkg/plugin/plugin.go:306-320 | so it agrees with the cache, and a restart leaves the cache as it is, if and only if the last cache saved is the one in memory |
| NetDisk.SavedNewest | pkg/plugin/plugin.go:306-344 | which is so whenever the last save that succeeded was of the newest snapshot |
| Scenarios.JoinDisplacesRestored | pkg/plugin/network.go:791 | a run of the program from the first boot, with no save pending at the end, in which a Join commit displaces the manager Restore has just registered |
| Scenarios.LateJoinSurvivesLeave | pkg/plugin/network.go:829-853 | a run of the program after which no thread runs and no save is pending, and an endpoint that has left has a registered running manager and no record |
| Scenarios.LateRestoreSurvivesLeave | pkg/plugin/plugin.go:543-561 | the same with a Restore that read the record before the Leave removed it and commits after the mark has gone |
| Scenarios.OlderSnapshotWins | pkg/plugin/plugin.go:230-237 | a run of the program after which no save is pending, memory has no record and a restart loads the removed one |
| Scenarios.OvertakingJoin | pkg/plugin/network.go:422-430 | a run of the program with one CreateEndpoint call and two Joins past the hint check, the second of which records a macvlan endpoint without interface index |
| StateFile.LoadSound | pkg/plugin/state.go:158-165 | every listed endpoint is loaded, and every loaded record is a listed one in every field but the version, under its own ID |
| StateFile.LoadLast | pkg/plugin/state.go:158-165 | of several entries of one endpoint the last is loaded, field by field, and version 0 becomes 1 |
| StateFile.LoadNetsLast | pkg/plugin/state.go:82-84 | of several entries of one network the last is loaded |
| StateFile.LoadNetsSound | pkg/plugin/state.go:82-84 | the same for networks.json |
| StateFile.RoundTrip | pkg/plugin/state.go:158-180 | any listing of a keyed table, stamped, loads to the same endpoints with every field as saved and version 1 |
| StateFile.RoundTripNets | pkg/plugin/state.go:82-97 | any listing of the network table loads to that table |
| StateFile.OldSchemaLoadsAlike | pkg/plugin/state.go:159-163 | a file from before versioning loads to the same table as its version-1 form |
| StateFile.ListRecords | pkg/plugin/state.go:176-180 | the list written has each record of the table once, with every field as it is and version 1, in whatever order |
| StateFile.ListNetworks | pkg/plugin/state.go:94-97 | the list written has each network of the table once, in whatever order |
| StateFile.LoadState | pkg/plugin/state.go:142-167 | a missing or empty file loads as the empty table, one that does not decode is an error, any other loads as `LoadLast` and `LoadSound` say |
| StateFile.LoadNetworks | pkg/plugin/state.go:66-86 | the same for networks.json |
| StateFile.SaveState | pkg/plugin/state.go:171-224 | whatever step fails or is the last before the machine dies, a later load returns the old table or the whole new one, every field of every record at version 1; a reported success is the new one, a reported failure the old file |
| StateFile.SaveNetworks | pkg/plugin/state.go:89-138 | the same for networks.json |
| StateFile.FileSlot.Replace | pkg/plugin/state.go:186-223 | whatever step fails or is the last, the file is untouched or holds the whole new list, safe on disk |
| StateFile.FileSlot.FillTemp | pkg/plugin/state.go:196-211 | only if all four calls succeed is the temporary file the whole list and safe on disk |
| PluginObject.Plugin.constructor | pkg/plugin/plugin.go:154-184 | the plugin starts from the loaded tables, or from an empty one where a file does not decode |
| PluginObject.Plugin.AddStateEntry | pkg/plugin/plugin.go:229-244 | the record is in the table, and a successful save left the whole new table in the file |
| PluginObject.Plugin.UpdateHostname | pkg/plugin/plugin.go:247-264 | only the hostname of an existing record changes; an absent one is not created |
| PluginObject.Plugin.RemoveStateEntry | pkg/plugin/plugin.go:269-293 | record and mark are gone, and the file is rewritten only if there was a record |
| PluginObject.Plugin.AddNetworkEntry | pkg/plugin/plugin.go:306-320 | the network is cached, and a successful save left the whole new cache in networks.json |
| PluginObject.Plugin.RemoveNetworkEntry | pkg/plugin/plugin.go:323-344 | the network is gone from the cache, and the file is rewritten only if it was there |
| PluginObject.Plugin.CommitJoinManager | pkg/plugin/network.go:782-792 | registered if and only if there is no mark, which is used up otherwise |
| PluginObject.Plugin.CommitRestoreManager | pkg/plugin/plugin.go:546-561 | an existing manager wins over a mark, and a mark over the restored manager |
| PluginObject.Plugin.Leave | pkg/plugin/network.go:818-858 | the registered manager, if any, is stopped and gone; otherwise the cancel entry is gone; in both cases record and mark are |
| PluginObject.Plugin.NetOptions | pkg/plugin/network.go:168-229 | the cache answers first; Docker's answer is returned, fills the cache and is saved; a record of the network answers last, and nothing is found exactly when there is none; nothing else is changed or saved |
| PluginObject.Plugin.InitialIP | pkg/plugin/network.go:264-297 | the address and, for IPv4, the gateway of the lease are in the hint, which is otherwise as before, as are all other hints; a failed run changes nothing |
| PluginObject.Plugin.CreateEndpoint | pkg/plugin/network.go:246-444 | a static address or an existing link is refused, and failing before the link exists changes nothing; failing later leaves no hint, and no link unless deleting it failed; success leaves the link and a complete hint with the addresses answered and the gateway of the IPv4 lease; other endpoints are untouched |
| PluginObject.Plugin.Join | pkg/plugin/network.go:667-749 | past the hint check exactly if there was a hint, which is then gone; a record is left exactly by a Join that also got its routes, and holds the hint's index and the options of the cache, of Docker or, with Docker out of reach, of some record of the network |
| PluginObject.Plugin.StartAndCommit | pkg/plugin/network.go:772-792 | a failed start or a mark leaves nothing running; otherwise a new manager is registered and the one it displaces, if any, is exactly what is left stray |
| PluginObject.Plugin.JoinInBackground | pkg/plugin/network.go:751-801 | on every path the cancel entry is gone, and the hostname goes only into a record that is still there |
| PluginObject.Plugin.RestoreFromState | pkg/plugin/plugin.go:435-573 | success means managed, failure changes no manager, an endpoint already managed is left alone, one off a bridge without index fails, and no attempt leaves a stray manager |
| PluginObject.Plugin.RestoreWithRetries | pkg/plugin/plugin.go:393-412 | at most four attempts, all of them made before it gives up unless it is cancelled |
| PluginObject.Plugin.Restore | pkg/plugin/plugin.go:360-432 | on completion restored plus dropped is the total and every remaining record is managed; on cancellation the endpoints not dealt with keep records and managers; at most four attempts per endpoint, none displaces a manager or leaves one stray |
| Lease.LastLeaseWins | pkg/plugin/dhcp_manager.go:80-180 | after any stream without failure or crash the interface holds the last leased address and what others put there, that address is recorded, and the default gateway is the last leased one; deconfig, nak and leasefail leave no trace |
| Lease.MissingIffLost | pkg/plugin/dhcp_manager.go:102-140 | for any kernel behaviour and restarts, the recorded address is missing if and only if some replacement deleted it and failed to add and to roll back, and every replacement since failed both |
| Lease.RecordedExactly | pkg/plugin/dhcp_manager.go:110-177 | for any stream and kernel the recorded address is that of the last replacement whose add succeeded, the default gateway is the one of the last lease that could set it, and no other route is touched |
| Lease.FewAddresses | pkg/plugin/dhcp_manager.go:110-131 | the addresses the engine left on the interface never exceed one plus the failed deletes of a present address |
| Lease.FamiliesIndependent | pkg/plugin/dhcp_manager.go:133-142 | for every interleaving of the two loops each family ends as if it had run alone, and only IPv4 inputs move the default route |
| Lease.DeconfiguredImpliesPrimed | pkg/plugin/dhcp_manager.go:255-301 | in every interleaving a family that waits for a replacement has seen a lease since its client last started |
| Lease.FlagsIff | pkg/plugin/dhcp_manager.go:255-328 | for any stream and kernel, a family is primed exactly if a lease came since its client last started, and waits for a replacement exactly if a deconfig came while it was primed with neither a restart nor a successful replacement since |
| Lease.RestartDecided | pkg/plugin/dhcp_manager.go:229-271 | a restart succeeds, or is stopped, exactly if the first attempt that does not fail starts a client, or is told to stop, and is among the first three |
| Lease.ResultIffExit | pkg/plugin/dhcp_manager.go:208-353 | a loop leaves a result exactly when it meets one of its four exits |
| Lease.ResultValueIff | pkg/plugin/dhcp_manager.go:208-353 | for every stream the result is clean if and only if the first exit met is a stop whose client terminated or a stop while waiting to restart, and an error if and only if it is any other exit |
| Lease.ResultOnce | pkg/plugin/dhcp_manager.go:344-353 | after the first exit nothing changes any more |
| Lease.MissingAddressPanics | pkg/plugin/dhcp_manager.go:80-102 | a family whose address was never found never touches an address or a route, and over any stream its loop dies of a lease if and only if one arrives before any other exit |
| DhcpManager.Manager.SwapAddress | pkg/plugin/dhcp_manager.go:110-139 | delete, add, put back on failure, and record only on success |
| DhcpManager.Manager.SetDefaultRoute | pkg/plugin/dhcp_manager.go:142-177 | on success the first default route has the gateway and the others are as before, or it is the only one; on any failure no route changes |
| DhcpManager.Manager.Renew | pkg/plugin/dhcp_manager.go:80-180 | refines the engine's renewal; it dies exactly on a parsable lease without a recorded address |
| DhcpManager.Manager.RestartClient | pkg/plugin/dhcp_manager.go:229-271 | the loop over the attempts ends as `RestartDecided` says |
| DhcpManager.Manager.EventLoop | pkg/plugin/dhcp_manager.go:209-356 | the loop over any stream leaves what `Play` says, whose flags, addresses, routes and result the `Lease` rows describe; one result if it ended and none if not; the other family's channel is untouched |
| Rendezvous.SendNeverBlocks | pkg/plugin/dhcp_manager.go:208-273 | for any number of Stops and failed starts, a running loop always has a free slot, and results sent are one per exited loop |
| Rendezvous.SendsItsResult | pkg/plugin/dhcp_manager.go:210-273 | a loop that ends sends what the hand-off says of its exit, and only a stop needs the signal |
| Rendezvous.SignalIff | pkg/plugin/dhcp_manager.go:474-512 | in every run the stop signal is closed exactly if a Stop found the manager running or a client failed to start |
| Rendezvous.ClosedByStops | pkg/plugin/dhcp_manager.go:504-524 | in every run the handles have been closed once by each Stop that found the manager running and has returned, and by no other |
| Rendezvous.StopIsMatched | pkg/plugin/dhcp_manager.go:504-524 | with at most one Stop its receives are matched or the loop can still exit, handles are closed at most once, and a clean return means every loop is gone |
| Rendezvous.EarlyIff | pkg/plugin/dhcp_manager.go:514-523 | with one Stop, one that has returned and closed the handles took no IPv6 result if and only if the IPv4 loop sent an error; it returns that error, and otherwise what the IPv6 loop sent |
| Rendezvous.SecondStopWaitsForever | pkg/plugin/dhcp_manager.go:514-516 | a Stop waiting on an exited IPv4 loop gets a result if and only if no other Stop took it, and otherwise waits in every later state |
| Rendezvous.EarlyReturn | pkg/plugin/dhcp_manager.go:514-516 | a run in which Stop has returned and closed the handles while the IPv6 loop runs |
| Cidr.NestedOrDisjoint | pkg/plugin/network.go:116 | two blocks of one family that share an address are nested |
| Cidr.ClashesIffOverlap | pkg/plugin/network.go:116 | the two membership tests hold if and only if the blocks share an address |
| Cidr.ContainsIffBits | pkg/plugin/network.go:116 | a block contains an address if and only if the family is the same and the leading bits, of 32 or 128, are |
| ConflictScan.ScanSubnets | pkg/plugin/network.go:105-120 | a conflict is reported exactly if a subnet other than the whole address space overlaps a bridge block before any subnet fails to parse |
| ConflictScan.Scan | pkg/plugin/network.go:88-121 | the verdict is that of the first network that is not clean |
| ConflictScan.ExactWhenParsable | pkg/plugin/network.go:88-121 | with parsable subnets the bridge is reported used if and only if some network has the same bridge or an overlapping subnet |
| ConflictScan.OrderIndependent | pkg/plugin/network.go:88-121 | with parsable subnets the order in which networks are listed, and listing one twice, do not matter |
| ConflictScan.BadSubnetHidesConflict | pkg/plugin/network.go:106-109 | anywhere in a list, a network with an unparsable subnet and no conflict of its own makes the answer that of the networks before it |
| Routes.AddRoutes | pkg/plugin/network.go:582-663 | gateway kept, or the next hop of the first default route; the routes copied are answered in order, each once, with its own destination and next hop; it dies exactly when it must look at a lease that is not there |
| Routes.JoinRoutes | pkg/plugin/network.go:714-736 | both passes together: with a complete hint neither dies and the answer holds the copied routes of both families, or none with skip_routes; the DHCP gateway wins over the bridge's |
| Routes.StaticExact | pkg/plugin/network.go:631-635 | a route is copied if and only if it has a destination, is not the kernel's own and does not cover the leased address |
| Routes.StaticInOrder | pkg/plugin/network.go:638-648 | each copied route is answered once, in listing order, with its own destination and its next hop exactly if it has one |
| Routes.GatewayIff | pkg/plugin/network.go:602-623 | the gateway is the one already there, or else the next hop of the first default route, the text of a missing address if that route is on-link, and none without a default route |
| Routes.NilGatewayIff | pkg/plugin/network.go:602-621 | the answer names a missing address as gateway if and only if DHCP gave none and the first default route has no next hop |

## Left out

- `Close`: it stops managers without taking them out of the table; the runs of `Ownership` end before it.
- Kernel, udhcpc, Docker and file system calls: arbitrary outcomes. A successful call is assumed to have had its effect and a failed one none; that the kernel drops routes with an address, or refuses to add one that is there, is not modelled.
- JSON text, option decoding and option validation in CreateNetwork: encoding is a faithful listing, decoding a partial function, and a read error other than a missing file acts like a file that does not decode.
- In `Protocol` a save is one step, which `SaveState` and `SaveNetworks` justify.
- Directory sync after the rename: a rename counts as durable once it has happened, so a power cut that undoes it (leaving the whole old file) is not a separate case.
- Times, contexts and cancellation signals: a cancelled Join thread may or may not fail to start; Restore may be cancelled wherever it looks.
- udhcpc processes: the client left behind by a dying loop, zombies and pipes are not modelled; a client is its event stream.
- Mixed IPv4 and IPv4-mapped IPv6 prefixes in membership tests: the two families never contain each other here.
- HTTP handlers, EndpointOperInfo, interface and host name lookups, health checks, logging, short names: single-branch code with no shared state.
- Polling helpers in `pkg/util`: a value that meets the condition, or an error.
- PluginObject.Plugin.Restore: with no other handler running in between; the interleavings are those of `Protocol`, and `RestoreTale` says what its Restore does with each endpoint there.
- PluginObject.Plugin.JoinInBackground: run without interruption, for the same reason.
- Maps and pointers: managers are numbers and records are values; Go aliasing of manager pointers is not modelled.
