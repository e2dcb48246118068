/** The two persisted tables as lists of records: what a save writes and what a load
    rebuilds. Encoding is a faithful list encoding; JSON text is not modelled. */
module StateFile {
  import opened Types

  /** The same record, apart from the version it was written with. */
  predicate SameRecord(a: EndpointRecord, b: EndpointRecord) {
    a.networkID == b.networkID && a.endpointID == b.endpointID && a.sandboxKey == b.sandboxKey &&
    a.mode == b.mode && a.bridge == b.bridge && a.ipv6 == b.ipv6 && a.ifIndex == b.ifIndex && a.hostname == b.hostname
  }

  /** The same endpoints with the same records. */
  ghost predicate Alike(a: StateTable, b: StateTable) {
    a.Keys == b.Keys && forall id | id in a :: SameRecord(a[id], b[id])
  }

  /** What a load must give of a table that was saved: all of it, at version 1. */
  ghost predicate Reloads(loaded: StateTable, saved: StateTable) {
    Alike(loaded, saved) && forall id | id in loaded :: loaded[id].schemaVersion == 1
  }

  lemma AlikeTrans(a: StateTable, b: StateTable, c: StateTable)
    requires Alike(a, b)
    ensures Alike(b, a)
    ensures Alike(b, c) ==> Alike(a, c)
    ensures Alike(a, c) ==> Alike(b, c)
  {
  }

  function Stamp(e: EndpointRecord): (r: EndpointRecord)
    ensures SameRecord(r, e) && r.schemaVersion == 1
  {
    e.(schemaVersion := CURRENT_SCHEMA)
  }

  /** A record written before versioning is read as version 1. */
  function Upgrade(e: EndpointRecord): (r: EndpointRecord)
    ensures SameRecord(r, e) && r.schemaVersion == if e.schemaVersion == 0 then 1 else e.schemaVersion
  {
    if e.schemaVersion == 0 then Stamp(e) else e
  }

  function StampAll(t: StateTable): (r: StateTable)
    ensures Reloads(r, t)
  {
    map id | id in t :: Stamp(t[id])
  }

  /** The table a load builds: later entries replace earlier ones with the same ID. */
  function Load(entries: seq<EndpointRecord>): (t: StateTable)
  {
    if entries == [] then map[]
    else
      var last := entries[|entries| - 1];
      Load(entries[..|entries| - 1])[last.endpointID := Upgrade(last)]
  }

  function LoadNets(entries: seq<NetworkRecord>): (t: NetTable)
  {
    if entries == [] then map[]
    else
      var last := entries[|entries| - 1];
      LoadNets(entries[..|entries| - 1])[last.networkID := last]
  }

  /** `entries` lists the records of `t`, in whatever order the map was walked. */
  predicate Lists(entries: seq<EndpointRecord>, t: StateTable) {
    (forall e | e in entries :: e.endpointID in t && t[e.endpointID] == e) &&
    (forall id | id in t :: t[id] in entries)
  }

  predicate ListsNets(entries: seq<NetworkRecord>, t: NetTable) {
    (forall e | e in entries :: e.networkID in t && t[e.networkID] == e) &&
    (forall id | id in t :: t[id] in entries)
  }

  /** Entry `i` is the last one of its endpoint. */
  predicate LastOf(entries: seq<EndpointRecord>, i: nat) {
    i < |entries| && forall j | i < j < |entries| :: entries[j].endpointID != entries[i].endpointID
  }

  /** The last entry of each endpoint is loaded, field by field, and version 0 becomes 1. */
  lemma {:induction false} LoadLast(entries: seq<EndpointRecord>, i: nat)
    requires LastOf(entries, i)
    ensures var t, e := Load(entries), entries[i];
      e.endpointID in t && SameRecord(t[e.endpointID], e) &&
      t[e.endpointID].schemaVersion == if e.schemaVersion == 0 then 1 else e.schemaVersion
  {
    var n := |entries| - 1;
    if i < n {
      assert entries[..n][i] == entries[i];
      LoadLast(entries[..n], i);
    }
  }

  lemma {:induction false} LoadNetsLast(entries: seq<NetworkRecord>, i: nat)
    requires i < |entries| && forall j | i < j < |entries| :: entries[j].networkID != entries[i].networkID
    ensures entries[i].networkID in LoadNets(entries) && LoadNets(entries)[entries[i].networkID] == entries[i]
  {
    var n := |entries| - 1;
    if i < n {
      assert entries[..n][i] == entries[i];
      LoadNetsLast(entries[..n], i);
    }
  }

  /** Every loaded record comes from the file, field by field, and sits under its own ID. */
  lemma {:induction false} LoadSound(entries: seq<EndpointRecord>)
    ensures Keyed(Load(entries))
    ensures forall id | id in Load(entries) ::
      exists e | e in entries ::
        e.endpointID == id && SameRecord(Load(entries)[id], e) && Load(entries)[id] == Upgrade(e)
    ensures forall e | e in entries :: e.endpointID in Load(entries)
  {
    if entries != [] {
      var n := |entries| - 1;
      LoadSound(entries[..n]);
      assert entries == entries[..n] + [entries[n]];
      forall id | id in Load(entries)
        ensures exists e | e in entries ::
          e.endpointID == id && SameRecord(Load(entries)[id], e) && Load(entries)[id] == Upgrade(e)
      {
        if id == entries[n].endpointID {
          assert entries[n] in entries;
        } else {
          var e :| e in entries[..n] && e.endpointID == id && Load(entries[..n])[id] == Upgrade(e);
          assert e in entries;
        }
      }
    }
  }

  lemma {:induction false} LoadNetsSound(entries: seq<NetworkRecord>)
    ensures KeyedNets(LoadNets(entries))
    ensures forall id | id in LoadNets(entries) :: LoadNets(entries)[id] in entries
    ensures forall e | e in entries :: e.networkID in LoadNets(entries)
  {
    if entries != [] {
      var n := |entries| - 1;
      LoadNetsSound(entries[..n]);
      assert entries == entries[..n] + [entries[n]];
    }
  }

  /** Load undoes save: any listing of the stamped table loads to the stamped table, which has
      every field of every record as it was and version 1. */
  lemma RoundTrip(entries: seq<EndpointRecord>, t: StateTable)
    requires Keyed(t) && Lists(entries, StampAll(t))
    ensures Load(entries) == StampAll(t) && Reloads(Load(entries), t)
  {
    LoadSound(entries);
    forall id | id in t ensures id in Load(entries) {
      assert StampAll(t)[id] in entries;
    }
  }

  lemma RoundTripNets(entries: seq<NetworkRecord>, t: NetTable)
    requires KeyedNets(t) && ListsNets(entries, t)
    ensures LoadNets(entries) == t
  {
    LoadNetsSound(entries);
    forall id | id in t ensures id in LoadNets(entries) {
      assert t[id] in entries;
    }
  }

  /** A file written before versioning loads to the same table as its version-1 form. */
  lemma {:induction false} OldSchemaLoadsAlike(entries: seq<EndpointRecord>)
    ensures Load(seq(|entries|, i requires 0 <= i < |entries| => Upgrade(entries[i]))) == Load(entries)
  {
    var up := seq(|entries|, i requires 0 <= i < |entries| => Upgrade(entries[i]));
    if entries != [] {
      var n := |entries| - 1;
      OldSchemaLoadsAlike(entries[..n]);
      assert up[..n] == seq(n, i requires 0 <= i < n => Upgrade(entries[..n][i]));
    }
  }

  /** The last record listed is listed only once. */
  lemma LastIsNew(list: seq<EndpointRecord>, t: StateTable)
    requires Keyed(t) && Lists(list, t) && |list| == |t| && list != []
    ensures list[|list| - 1] !in list[..|list| - 1]
  {
    var n := |list| - 1;
    var init := list[..n];
    assert list == init + [list[n]];
    if list[n] in init {
      assert forall e | e in list :: e in init;
      SizeAtMost(init, t);
    }
  }

  /** A listing as long as its table names no endpoint twice. */
  lemma {:induction false} Distinct(list: seq<EndpointRecord>, t: StateTable)
    requires Keyed(t) && Lists(list, t) && |list| == |t|
    ensures forall i, j | 0 <= i < j < |list| :: list[i].endpointID != list[j].endpointID
  {
    if list != [] {
      var n := |list| - 1;
      var init, last := list[..n], list[n];
      assert list == init + [last];
      LastIsNew(list, t);
      var rest := t - {last.endpointID};
      assert t.Keys == rest.Keys + {last.endpointID};
      forall e | e in init ensures e.endpointID in rest && rest[e.endpointID] == e {
        assert e in list;
      }
      forall id | id in rest ensures rest[id] in init {
        assert t[id] in list;
      }
      Distinct(init, rest);
      forall i | 0 <= i < n ensures list[i].endpointID != last.endpointID {
        assert init[i] in init;
      }
    }
  }

  lemma {:induction false} SizeAtMost(list: seq<EndpointRecord>, t: StateTable)
    requires forall id | id in t :: t[id].endpointID == id && t[id] in list
    ensures |t| <= |list|
  {
    var ids := set e | e in list :: e.endpointID;
    assert t.Keys <= ids;
    ImageSize(list);
    assert ids == t.Keys + (ids - t.Keys);
  }

  lemma {:induction false} ImageSize(list: seq<EndpointRecord>)
    ensures |set e | e in list :: e.endpointID| <= |list|
  {
    if list == [] {
      assert (set e | e in list :: e.endpointID) == {};
    } else {
      var n := |list| - 1;
      ImageSize(list[..n]);
      assert list == list[..n] + [list[n]];
      assert (set e | e in list :: e.endpointID) == (set e | e in list[..n] :: e.endpointID) + {list[n].endpointID};
    }
  }

  // ---------------------------------------------------------------------------
  // A file that is replaced as a whole
  // ---------------------------------------------------------------------------

  /** File contents: zero bytes, bytes that do not decode, or a decodable list. */
  datatype Contents<T> = Zero | Torn | Listed(entries: seq<T>)

  /** `synced` says the bytes survive a power cut. */
  datatype File<T> = File(contents: Contents<T>, synced: bool)

  datatype LoadResult<M> = Loaded(table: M) | DecodeError

  /** How a save ended: success, an error returned to the caller, or the machine died. */
  datatype SaveResult = Saved | Failed | Died

  function LoadFile(f: Option<File<EndpointRecord>>): LoadResult<StateTable> {
    match f
    case None => Loaded(map[])
    case Some(File(Zero, _)) => Loaded(map[])
    case Some(File(Torn, _)) => DecodeError
    case Some(File(Listed(entries), _)) => Loaded(Load(entries))
  }

  function LoadNetFile(f: Option<File<NetworkRecord>>): LoadResult<NetTable> {
    match f
    case None => Loaded(map[])
    case Some(File(Zero, _)) => Loaded(map[])
    case Some(File(Torn, _)) => DecodeError
    case Some(File(Listed(entries), _)) => Loaded(LoadNets(entries))
  }

  /** Unsynced bytes may be lost in a power cut. */
  function AfterPowerCut<T>(f: Option<File<T>>): Option<File<T>> {
    match f
    case Some(File(_, false)) => Some(File(Torn, false))
    case _ => f
  }

  /** One file, and the temporary file of the save in progress if any. */
  class FileSlot<T> {
    var file: Option<File<T>>
    var temp: Option<File<T>>

    constructor ()
      ensures file == None && temp == None
    {
      file, temp := None, None;
    }

    /** Writes the list through a temporary file. Every call may succeed, fail, or be the last
        thing the machine does (`power` false). Whatever happens, the file is either untouched
        or holds the whole new list, synced. */
    method Replace(entries: seq<T>) returns (r: SaveResult)
      modifies this
      ensures r.Saved? ==> file == Some(File(Listed(entries), true)) && temp == None
      ensures r.Failed? ==> file == old(file)
      ensures file == old(file) || file == Some(File(Listed(entries), true))
    {
      var ok, power: bool := *, *;
      if !power { return Died; }
      if !ok { return Failed; }                       // MkdirAll

      ok, power := *, *;
      if !power { return Died; }
      if !ok { return Failed; }                       // CreateTemp
      temp := Some(File(Zero, false));

      r := FillTemp(entries);
      if r.Died? { return Died; }
      if r.Failed? {
        RemoveTemp();
        return Failed;
      }

      ok, power := *, *;                              // Rename
      if ok {
        file, temp := temp, None;
      }
      if !power { return Died; }
      RemoveTemp();
      return if ok then Saved else Failed;
    }

    /** Chmod, Write, Sync, Close. Success leaves the whole list on disk. */
    method FillTemp(entries: seq<T>) returns (r: SaveResult)
      requires temp == Some(File(Zero, false))
      modifies this`temp
      ensures r.Saved? ==> temp == Some(File(Listed(entries), true))
    {
      var ok, power: bool := *, *;
      if !power { return Died; }
      if !ok { return Failed; }                       // Chmod

      ok, power := *, *;                              // Write
      temp := Some(File(if ok then Listed(entries) else Torn, false));
      if !power { return Died; }
      if !ok { return Failed; }

      ok, power := *, *;                              // Sync
      if ok {
        temp := Some(File(Listed(entries), true));
      }
      if !power { return Died; }
      if !ok { return Failed; }

      ok, power := *, *;                              // Close
      if !power { return Died; }
      return if ok then Saved else Failed;
    }

    /** The deferred best-effort removal. */
    method RemoveTemp()
      modifies this`temp
      ensures temp == None || temp == old(temp)
    {
      var ok: bool := *;
      if ok {
        temp := None;
      }
    }
  }

  // ---------------------------------------------------------------------------
  // state.json and networks.json
  // ---------------------------------------------------------------------------

  method LoadState(slot: FileSlot<EndpointRecord>) returns (r: LoadResult<StateTable>)
    ensures r == LoadFile(slot.file)
    ensures slot.file.None? || slot.file.value.contents.Zero? ==> r == Loaded(map[])
    ensures slot.file.Some? && slot.file.value.contents.Torn? ==> r.DecodeError?
    ensures slot.file.Some? && slot.file.value.contents.Listed? ==> r.Loaded?
  {
    if slot.file.None? {
      return Loaded(map[]);
    }
    match slot.file.value.contents {
      case Zero => return Loaded(map[]);
      case Torn => return DecodeError;
      case Listed(entries) =>
        var out: StateTable := map[];
        for i := 0 to |entries|
          invariant out == Load(entries[..i])
        {
          assert entries[..i + 1][..i] == entries[..i];
          var e := entries[i];
          if e.schemaVersion == 0 {
            e := e.(schemaVersion := CURRENT_SCHEMA);
          }
          out := out[e.endpointID := e];
        }
        assert entries[..|entries|] == entries;
        return Loaded(out);
    }
  }

  method LoadNetworks(slot: FileSlot<NetworkRecord>) returns (r: LoadResult<NetTable>)
    ensures r == LoadNetFile(slot.file)
    ensures slot.file.None? || slot.file.value.contents.Zero? ==> r == Loaded(map[])
    ensures slot.file.Some? && slot.file.value.contents.Torn? ==> r.DecodeError?
    ensures slot.file.Some? && slot.file.value.contents.Listed? ==> r.Loaded?
  {
    if slot.file.None? {
      return Loaded(map[]);
    }
    match slot.file.value.contents {
      case Zero => return Loaded(map[]);
      case Torn => return DecodeError;
      case Listed(entries) =>
        var out: NetTable := map[];
        for i := 0 to |entries|
          invariant out == LoadNets(entries[..i])
        {
          assert entries[..i + 1][..i] == entries[..i];
          out := out[entries[i].networkID := entries[i]];
        }
        assert entries[..|entries|] == entries;
        return Loaded(out);
    }
  }

  /** The file loads, now and after a power cut, as the whole table. */
  ghost predicate Holds(f: Option<File<EndpointRecord>>, table: StateTable) {
    LoadFile(f) == LoadFile(AfterPowerCut(f)) && LoadFile(f).Loaded? && Reloads(LoadFile(f).table, table)
  }

  ghost predicate HoldsNets(f: Option<File<NetworkRecord>>, table: NetTable) {
    LoadNetFile(f) == LoadNetFile(AfterPowerCut(f)) == Loaded(table)
  }

  /** How a save leaves a file: with the whole new table, untouched, or, if the machine died in
      the middle, one of the two. */
  ghost predicate SavedAs(r: SaveResult, same: bool, whole: bool) {
    match r
    case Saved => whole
    case Failed => same
    case Died => same || whole
  }

  /** Whatever step fails or is the last, a later load returns the old table or the whole new
      one; an old table that was safe is never lost. */
  method SaveState(slot: FileSlot<EndpointRecord>, table: StateTable) returns (r: SaveResult)
    requires Keyed(table)
    modifies slot
    ensures SavedAs(r, slot.file == old(slot.file), Holds(slot.file, table))
    ensures r.Saved? ==> slot.temp == None
  {
    var entries := ListRecords(table);
    r := slot.Replace(entries);
    RoundTrip(entries, table);
  }

  method SaveNetworks(slot: FileSlot<NetworkRecord>, table: NetTable) returns (r: SaveResult)
    requires KeyedNets(table)
    modifies slot
    ensures SavedAs(r, slot.file == old(slot.file), HoldsNets(slot.file, table))
    ensures r.Saved? ==> slot.temp == None
  {
    var entries := ListNetworks(table);
    r := slot.Replace(entries);
    RoundTripNets(entries, table);
  }

  /** The loop that turns the table into a list, in an arbitrary order. */
  method ListRecords(table: StateTable) returns (entries: seq<EndpointRecord>)
    requires Keyed(table)
    ensures Lists(entries, StampAll(table)) && |entries| == |table|
    ensures forall e | e in entries ::
      e.endpointID in table && SameRecord(e, table[e.endpointID]) && e.schemaVersion == 1
    ensures forall id | id in table :: exists e | e in entries :: e.endpointID == id
  {
    entries := [];
    var todo := table.Keys;
    while todo != {}
      invariant todo <= table.Keys
      invariant |entries| + |todo| == |table|
      invariant forall e | e in entries :: e.endpointID in table && StampAll(table)[e.endpointID] == e
      invariant forall id | id in table && id !in todo :: StampAll(table)[id] in entries
    {
      var id :| id in todo;
      entries := entries + [table[id].(schemaVersion := CURRENT_SCHEMA)];
      todo := todo - {id};
    }
  }

  method ListNetworks(table: NetTable) returns (entries: seq<NetworkRecord>)
    requires KeyedNets(table)
    ensures ListsNets(entries, table)
    ensures |entries| == |table|
  {
    entries := [];
    var todo := table.Keys;
    while todo != {}
      invariant todo <= table.Keys
      invariant |entries| + |todo| == |table|
      invariant forall e | e in entries :: e.networkID in table && table[e.networkID] == e
      invariant forall id | id in table && id !in todo :: table[id] in entries
    {
      var id :| id in todo;
      entries := entries + [table[id]];
      todo := todo - {id};
    }
  }
}
