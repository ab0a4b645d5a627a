/**
 The store of qualifications, assignments and batches (qualification.mjs): one directory of
 numbered revisions per record, and one queue of promises per namespace whose idle tail is
 forgotten again.
 */
module RecordStore {
  import opened Wrappers

  const DIRECTORIES: nat := 256
  const REVISIONS: nat := 1024
  const MAX_BYTES: nat := 2 * 1024 * 1024

  // ---------------------------------------------------------------- records, one operation at a time

  type Key = nat

  /** A revision file; `Torn` is created but not, or not fully, written. */
  datatype Cell = Full(data: int) | Torn

  type Store = map<Key, seq<Cell>>

  /** `size` is how many bytes the file of a save would have. */
  datatype Op = Read(key: Key) | Save(key: Key, data: int, expected: nat, size: nat) | Remove(key: Key) | Entries

  datatype Result =
    | Value(revision: nat, data: int) | Absent | Corrupt | Bound | Conflict | Saved(revision: nat) | Failed
    | Removed | NotThere | All(records: map<Key, int>)

  /** How far the disk lets a save get: to the end; not to a file; to a file cut off in the middle;
      or to a whole file, of which the save learns nothing because syncing or closing it failed. */
  datatype Disk = Works | NoFile | TornWrite | SyncFails

  function ReadDir(s: Store, key: Key): Result {
    if key !in s then Absent else LastOf(s[key])
  }

  function LastOf(dir: seq<Cell>): Result {
    if |dir| > REVISIONS then Corrupt
    else if dir == [] then Absent
    else if dir[|dir| - 1] == Torn then Corrupt
    else Value(|dir|, dir[|dir| - 1].data)
  }

  function Revision(r: Result): nat { if r.Value? then r.revision else 0 }

  /** Why a save is refused before anything is created. */
  function Refusal(s: Store, key: Key, expected: nat, size: nat): Option<Result> {
    if |s| > DIRECTORIES then Some(Corrupt)
    else if key !in s && |s| >= DIRECTORIES then Some(Bound)
    else
      var current := ReadDir(s, key);
      if current == Corrupt then Some(Corrupt)
      else if Revision(current) != expected || expected >= REVISIONS then Some(Conflict)
      else if size > MAX_BYTES then Some(Bound)
      else None
  }

  function DirOf(s: Store, key: Key): seq<Cell> { if key in s then s[key] else [] }

  /** The directory is made and, if it can be opened, the new file, still empty. */
  function Created(s: Store, key: Key, opens: bool): Store {
    s[key := DirOf(s, key) + if opens then [Torn] else []]
  }

  function Written(s: Store, key: Key, data: int): Store
    requires key in s && s[key] != []
  {
    s[key := s[key][..|s[key]| - 1] + [Full(data)]]
  }

  predicate Listable(s: Store) { |s| <= DIRECTORIES && forall key :: key in s ==> LastOf(s[key]) != Corrupt }

  function Perform(s: Store, op: Op, disk: Disk): (Store, Result) {
    match op
    case Read(key) => (s, ReadDir(s, key))
    case Save(key, data, expected, size) =>
      var no := Refusal(s, key, expected, size);
      if no.Some? then (s, no.value)
      else if disk == NoFile then (Created(s, key, false), Failed)
      else if disk == TornWrite then (Created(s, key, true), Failed)
      else (Written(Created(s, key, true), key, data), if disk == Works then Saved(expected + 1) else Failed)
    case Remove(key) => if key in s then (s - {key}, Removed) else (s, NotThere)
    case Entries =>
      if Listable(s) then (s, All(map key | key in s && s[key] != [] && s[key][|s[key]| - 1].Full? ::
        s[key][|s[key]| - 1].data))
      else (s, Corrupt)
  }

  /** A listing is refused exactly if some record cannot be read, and otherwise shows every record that
      has a revision, as it would be read. */
  lemma ListsEveryRecord(s: Store, disk: Disk)
    requires Tidy(s)
    ensures Perform(s, Entries, disk).0 == s
    ensures Perform(s, Entries, disk).1.All? <==> forall key :: ReadDir(s, key) != Corrupt
    ensures !Perform(s, Entries, disk).1.All? ==> Perform(s, Entries, disk).1 == Corrupt
    ensures Perform(s, Entries, disk).1.All? ==>
              var records := Perform(s, Entries, disk).1.records;
              forall key ::
                if key in records then ReadDir(s, key) == Value(|DirOf(s, key)|, records[key])
                else ReadDir(s, key) == Absent
  {
    if Listable(s) {
      forall key ensures ReadDir(s, key) != Corrupt {
      }
    } else {
      var key :| key in s && LastOf(s[key]) == Corrupt;
      assert ReadDir(s, key) == Corrupt;
    }
  }

  /** What any sequence of operations keeps: never too many directories or revisions, and no
      torn revision but a last one. */
  predicate Tidy(s: Store) { |s| <= DIRECTORIES && forall key :: key in s ==> TidyDir(s[key]) }

  predicate TidyDir(dir: seq<Cell>) { |dir| <= REVISIONS && forall i :: 0 <= i < |dir| - 1 ==> dir[i] != Torn }

  lemma SizeAfter(s: Store, key: Key, dir: seq<Cell>)
    ensures |s[key := dir]| == if key in s then |s| else |s| + 1
  {
    var t := s[key := dir];
    assert t.Keys == s.Keys + {key};
    assert |t| == |t.Keys| && |s| == |s.Keys|;
    if key !in s {
      assert |s.Keys + {key}| == |s.Keys| + 1;
    } else {
      assert s.Keys + {key} == s.Keys;
    }
  }

  lemma SizeWithout(s: Store, key: Key)
    ensures |s - {key}| <= |s|
  {
    var t := s - {key};
    assert t.Keys == s.Keys - {key};
    assert |t| == |t.Keys| && |s| == |s.Keys|;
  }

  lemma PutTidy(s: Store, key: Key, dir: seq<Cell>)
    requires Tidy(s) && TidyDir(dir) && (key in s || |s| < DIRECTORIES)
    ensures Tidy(s[key := dir])
  {
    hide TidyDir;
    SizeAfter(s, key, dir);
  }

  lemma DirGrows(dir: seq<Cell>, cell: Cell)
    requires TidyDir(dir) && |dir| < REVISIONS && (dir != [] ==> dir[|dir| - 1] != Torn)
    ensures TidyDir(dir + [cell])
  {
  }

  /** What an admitted save may rely on. */
  lemma Admitted(s: Store, key: Key, expected: nat, size: nat) returns (dir: seq<Cell>)
    requires Tidy(s) && Refusal(s, key, expected, size) == None
    ensures dir == DirOf(s, key) && TidyDir(dir) && |dir| < REVISIONS && (dir != [] ==> dir[|dir| - 1] != Torn)
    ensures key in s || |s| < DIRECTORIES
  {
    dir := DirOf(s, key);
    assert TidyDir([]);
  }

  lemma SaveResult(s: Store, key: Key, data: int, expected: nat, size: nat, disk: Disk)
    ensures var (t, r) := Perform(s, Save(key, data, expected, size), disk);
            if Refusal(s, key, expected, size).Some? then t == s && !r.Saved? && r != Failed
            else r == if disk == Works then Saved(expected + 1) else Failed
  {
    hide Created, Written, ReadDir;
  }

  lemma SavedDirectory(s: Store, key: Key, data: int, expected: nat, size: nat, disk: Disk)
    requires Refusal(s, key, expected, size) == None
    ensures var t, dir := Perform(s, Save(key, data, expected, size), disk).0, DirOf(s, key);
            && key in t && t == s[key := t[key]]
            && t[key] == dir + (if disk == NoFile then [] else if disk == TornWrite then [Torn] else [Full(data)])
  {
    var dir := DirOf(s, key);
    assert dir + [] == dir;
    assert (dir + [Torn])[..|dir|] == dir;
  }

  lemma SaveTidy(s: Store, key: Key, data: int, expected: nat, size: nat, disk: Disk)
    requires Tidy(s)
    ensures Tidy(Perform(s, Save(key, data, expected, size), disk).0)
  {
    hide Perform, Refusal, Tidy, TidyDir, DirOf;
    SaveResult(s, key, data, expected, size, disk);
    if Refusal(s, key, expected, size) == None {
      var dir := Admitted(s, key, expected, size);
      SavedDirectory(s, key, data, expected, size, disk);
      assert dir + [] == dir;
      DirGrows(dir, Torn);
      DirGrows(dir, Full(data));
      PutTidy(s, key, Perform(s, Save(key, data, expected, size), disk).0[key]);
    }
  }

  /** Every operation keeps the store tidy, so listing is never refused for the number of
      directories, and reading never for the number of revisions. */
  lemma PerformTidy(s: Store, op: Op, disk: Disk)
    requires Tidy(s)
    ensures Tidy(Perform(s, op, disk).0)
  {
    match op
    case Read(_) =>
    case Entries =>
    case Remove(key) => SizeWithout(s, key);
    case Save(key, data, expected, size) => SaveTidy(s, key, data, expected, size, disk);
  }

  /** A save succeeds exactly when the record is readable at the expected revision, there is
      room, the file is not too large, and the disk works; then a read returns it, and every
      other record is untouched. */
  lemma SaveIsCompareAndSwap(s: Store, key: Key, data: int, expected: nat, size: nat, disk: Disk)
    requires Tidy(s)
    ensures var (t, r) := Perform(s, Save(key, data, expected, size), disk);
            && (r.Saved? <==>
                  && disk == Works && expected < REVISIONS && (key in s || |s| < DIRECTORIES) && size <= MAX_BYTES
                  && ReadDir(s, key) != Corrupt && Revision(ReadDir(s, key)) == expected)
            && (r.Saved? ==> r.revision == expected + 1 && ReadDir(t, key) == Value(expected + 1, data))
            && (forall other :: other in s && other != key ==> other in t && t[other] == s[other])
            && (forall other :: other in t && other != key ==> other in s)
  {
  }

  /** Of two writers that read the same revision, the second to save is refused. */
  lemma SecondSaveConflicts(s: Store, key: Key, a: int, b: int, expected: nat, size: nat, other: nat, disk: Disk)
    requires Tidy(s) && Perform(s, Save(key, a, expected, size), Works).1.Saved?
    ensures var t := Perform(s, Save(key, a, expected, size), Works).0;
            !Perform(t, Save(key, b, expected, other), disk).1.Saved?
  {
    SaveIsCompareAndSwap(s, key, a, expected, size, Works);
    PerformTidy(s, Save(key, a, expected, size), Works);
    var t := Perform(s, Save(key, a, expected, size), Works).0;
    hide Perform;
    SaveIsCompareAndSwap(t, key, b, expected, other, disk);
  }

  // ---------------------------------------------------------------- the store as it is updated

  lemma SameDirectory(s: Store, key: Key)
    ensures Created(s, key, false) == if key in s then s else s[key := []]
  {
    assert DirOf(s, key) + [] == DirOf(s, key);
  }

  /** The last save of a record that was written as a whole, and whether its caller was told. */
  datatype Kept = Kept(revision: nat, data: int, acknowledged: bool)

  /** What a directory must hold, given how its saves went: the last one written as a whole, or,
      after a save that was cut off in the middle, one torn file behind it. */
  predicate Agrees(dir: seq<Cell>, kept: Option<Kept>, torn: bool) {
    && |dir| == (if kept.Some? then kept.value.revision else 0) + (if torn then 1 else 0)
    && (torn ==> dir[|dir| - 1] == Torn)
    && (kept.Some? ==> 0 < kept.value.revision && dir[kept.value.revision - 1] == Full(kept.value.data))
  }

  predicate AllAgree(s: Store, kept: map<Key, Kept>, torn: set<Key>) {
    && kept.Keys <= s.Keys && torn <= s.Keys
    && forall key :: key in s ==> Agrees(s[key], if key in kept then Some(kept[key]) else None, key in torn)
  }

  /** What is to be expected of a read, given how the saves since the last removal went. */
  function Expected(kept: map<Key, Kept>, torn: set<Key>, key: Key): Result {
    if key in torn then Corrupt else if key in kept then Value(kept[key].revision, kept[key].data) else Absent
  }

  /** A torn file, or one whose save was not acknowledged, is there only where the disk failed. */
  predicate Doubted(kept: map<Key, Kept>, torn: set<Key>, failed: set<Key>) {
    torn <= failed && forall key :: key in kept && !kept[key].acknowledged ==> key in failed
  }

  function KeptAfter(kept: map<Key, Kept>, key: Key, expected: nat, data: int, r: Result, disk: Disk): map<Key, Kept> {
    if r.Saved? || (r == Failed && disk == SyncFails) then kept[key := Kept(expected + 1, data, r.Saved?)] else kept
  }

  function FailedAfter(failed: set<Key>, key: Key, r: Result): set<Key> {
    if r.Saved? then failed - {key} else if r == Failed then failed + {key} else failed
  }

  lemma DoubtAfter(kept: map<Key, Kept>, torn: set<Key>, failed: set<Key>, key: Key, expected: nat, data: int,
      r: Result, disk: Disk)
    requires Doubted(kept, torn, failed) && (r.Saved? ==> key !in torn)
    ensures Doubted(KeptAfter(kept, key, expected, data, r, disk),
              if r == Failed && disk == TornWrite then torn + {key} else torn,
                    FailedAfter(failed, key, r))
  {
  }

  lemma ReadIsExpected(s: Store, kept: map<Key, Kept>, torn: set<Key>, key: Key)
    requires Tidy(s) && AllAgree(s, kept, torn)
    ensures ReadDir(s, key) == Expected(kept, torn, key)
  {
  }

  lemma AgreesAfter(s: Store, kept: map<Key, Kept>, torn: set<Key>, t: Store, more: map<Key, Kept>, cut: set<Key>,
      key: Key)
    requires AllAgree(s, kept, torn) && key in t && t == s[key := t[key]]
    requires more == kept || (key in more && more == kept[key := more[key]])
    requires cut == torn || cut == torn + {key}
    requires Agrees(t[key], if key in more then Some(more[key]) else None, key in cut)
    ensures AllAgree(t, more, cut)
  {
    hide Agrees;
    forall k | k in t ensures Agrees(t[k], if k in more then Some(more[k]) else None, k in cut) {
      if k != key {
        assert k in s && t[k] == s[k];
      }
    }
  }

  /** The records, and, as ghosts, how their saves went. */
  class Namespace {
    var store: Store
    ghost var kept: map<Key, Kept> // the last save written as a whole since the record was last removed
    ghost var torn: set<Key>       // records whose last save was cut off in the middle
    ghost var failed: set<Key>     // records of which the disk failed a save since one was acknowledged

    constructor ()
      ensures Valid() && store == map[] && kept == map[] && torn == {} && failed == {}
    {
      store, kept, torn, failed := map[], map[], {}, {};
    }

    ghost predicate Valid()
      reads this
    {
      Tidy(store) && AllAgree(store, kept, torn) && Doubted(kept, torn, failed)
    }

    /** A read returns the last save written as a whole, refuses if a later one was cut off, and
        finds nothing if there was none since the last removal.  Unless the disk failed a save
        since, what it returns was acknowledged, and it does not refuse. */
    method ReadRecord(key: Key) returns (r: Result)
      ensures r == ReadDir(store, key)
      ensures Valid() ==> r == Expected(kept, torn, key)
      ensures Valid() && key !in failed ==> r != Corrupt && (r.Value? ==> kept[key].acknowledged)
    {
      if Valid() { ReadIsExpected(store, kept, torn, key); }
      hide Tidy, AllAgree, Agrees;
      if key !in store { return Absent; }
      var dir := store[key];
      if |dir| > REVISIONS { return Corrupt; }
      if dir == [] { return Absent; }
      var last := dir[|dir| - 1];
      if last == Torn { return Corrupt; }
      return Value(|dir|, last.data);
    }

    /** The record is read again before the next revision is created exclusively. */
    method SaveUnlocked(key: Key, data: int, expected: nat, size: nat, disk: Disk) returns (r: Result)
      modifies `store
      ensures (store, r) == Perform(old(store), Save(key, data, expected, size), disk)
    {
      if |store| > DIRECTORIES { return Corrupt; }
      if key !in store && |store| >= DIRECTORIES { return Bound; }
      var current := ReadRecord(key);
      if current == Corrupt { return Corrupt; }
      if Revision(current) != expected || expected >= REVISIONS { return Conflict; }
      if size > MAX_BYTES { return Bound; }
      if key !in store { store := store[key := []]; }
      SameDirectory(old(store), key);
      assert store == Created(old(store), key, false) && store[key] == DirOf(old(store), key);
      if disk == NoFile { return Failed; }
      store := store[key := store[key] + [Torn]];
      assert store[key] == DirOf(old(store), key) + [Torn];
      assert store == Created(old(store), key, true);
      if disk == TornWrite { return Failed; }
      store := store[key := store[key][..|store[key]| - 1] + [Full(data)]];
      if disk == SyncFails { return Failed; }
      return Saved(expected + 1);
    }

    /** A save is acknowledged exactly when it expects the last revision written as a whole, none
        was cut off since, there is room, and the disk works; one that fails only in the end is
        kept all the same. */
    method SaveRecord(key: Key, data: int, expected: nat, size: nat, disk: Disk) returns (r: Result)
      modifies this
      ensures (store, r) == Perform(old(store), Save(key, data, expected, size), disk)
      ensures kept == KeptAfter(old(kept), key, expected, data, r, disk)
      ensures failed == FailedAfter(old(failed), key, r)
      ensures torn == (if r == Failed && disk == TornWrite then old(torn) + {key} else old(torn))
      ensures old(Valid()) ==> Valid()
      ensures old(Valid()) ==>
                (r.Saved? <==>
                   && disk == Works && size <= MAX_BYTES && expected < REVISIONS
                   && (key in old(store) || |old(store)| < DIRECTORIES)
                   && key !in old(torn) && expected == (if key in old(kept) then old(kept)[key].revision else 0))
    {
      if Valid() {
        SaveKeepsFaith(store, kept, torn, key, data, expected, size, disk);
        DoubtAfter(kept, torn, failed, key, expected, data, Perform(store, Save(key, data, expected, size), disk).1,
          disk);
      }
      hide Tidy, AllAgree, Perform, Doubted;
      r := SaveUnlocked(key, data, expected, size, disk);
      kept := KeptAfter(kept, key, expected, data, r, disk);
      if r == Failed && disk == TornWrite { torn := torn + {key}; }
      failed := FailedAfter(failed, key, r);
    }

    /** A removal forgets the record, torn or not, and nothing else: reading finds nothing, and
        a save may start at revision 0 again. */
    method RemoveRecord(key: Key) returns (r: Result)
      modifies this
      ensures (store, r) == Perform(old(store), Remove(key), Works)
      ensures kept == old(kept) - {key} && torn == old(torn) - {key} && failed == old(failed) - {key}
      ensures old(Valid()) ==> Valid() && ReadDir(store, key) == Absent
      ensures old(Valid()) && r == Removed ==> forall size: nat :: size <= MAX_BYTES ==>
                Refusal(store, key, 0, size) == None
    {
      if Valid() { RemovalKeepsFaith(store, kept, torn, failed, key); }
      hide Tidy, AllAgree, Doubted, Agrees, Refusal, ReadDir;
      kept, torn, failed := kept - {key}, torn - {key}, failed - {key};
      if key !in store { return NotThere; }
      store := store - {key};
      return Removed;
    }
  }

  lemma RemovalKeepsFaith(s: Store, kept: map<Key, Kept>, torn: set<Key>, failed: set<Key>, key: Key)
    requires Tidy(s) && AllAgree(s, kept, torn) && Doubted(kept, torn, failed)
    ensures var t := if key in s then s - {key} else s;
            && Tidy(t) && AllAgree(t, kept - {key}, torn - {key}) && Doubted(kept - {key}, torn - {key}, failed - {key})
            && ReadDir(t, key) == Absent
            && (key in s ==> forall size: nat :: size <= MAX_BYTES ==> Refusal(t, key, 0, size) == None)
  {
    hide Agrees, TidyDir;
    if key in s { SizeAfterRemoval(s, key); }
  }

  lemma SizeAfterRemoval(s: Store, key: Key)
    requires key in s
    ensures |s - {key}| == |s| - 1
  {
    var t := s - {key};
    assert t.Keys == s.Keys - {key};
    assert |t| == |t.Keys| && |s| == |s.Keys|;
  }

  /** What callers are told about a save agrees with what it leaves in the store. */
  lemma SaveKeepsFaith(s: Store, kept: map<Key, Kept>, torn: set<Key>, key: Key, data: int, expected: nat, size: nat,
      disk: Disk)
    requires Tidy(s) && AllAgree(s, kept, torn)
    ensures var (t, r) := Perform(s, Save(key, data, expected, size), disk);
            && Tidy(t)
            && AllAgree(t, KeptAfter(kept, key, expected, data, r, disk),
                 if r == Failed && disk == TornWrite then torn + {key} else torn)
            && (r.Saved? <==>
                  && disk == Works && size <= MAX_BYTES && expected < REVISIONS && (key in s || |s| < DIRECTORIES)
                  && key !in torn && expected == (if key in kept then kept[key].revision else 0))
  {
    PerformTidy(s, Save(key, data, expected, size), disk);
    ReadIsExpected(s, kept, torn, key);
    SaveIsCompareAndSwap(s, key, data, expected, size, disk);
    SaveResult(s, key, data, expected, size, disk);
    hide Tidy, AllAgree, ReadDir, Perform, Refusal, Agrees;
    var (t, r) := Perform(s, Save(key, data, expected, size), disk);
    if Refusal(s, key, expected, size) == None {
      var dir := DirOf(s, key);
      AdmittedAgrees(s, kept, torn, key, expected, size);
      var more := KeptAfter(kept, key, expected, data, r, disk);
      var cut := if r == Failed && disk == TornWrite then torn + {key} else torn;
      SavedDirectory(s, key, data, expected, size, disk);
      SavedAgrees(DirOf(s, key), if key in kept then Some(kept[key]) else None, expected, data, disk);
      AgreesAfter(s, kept, torn, t, more, cut, key);
    }
  }

  lemma SavedAgrees(dir: seq<Cell>, kept: Option<Kept>, expected: nat, data: int, disk: Disk)
    requires Agrees(dir, kept, false) && expected == |dir|
    ensures match disk
            case NoFile => Agrees(dir + [], kept, false)
            case TornWrite => Agrees(dir + [Torn], kept, true)
            case Works => Agrees(dir + [Full(data)], Some(Kept(expected + 1, data, true)), false)
            case SyncFails => Agrees(dir + [Full(data)], Some(Kept(expected + 1, data, false)), false)
  {
    assert dir + [] == dir;
  }

  lemma AdmittedAgrees(s: Store, kept: map<Key, Kept>, torn: set<Key>, key: Key, expected: nat, size: nat)
    requires Tidy(s) && AllAgree(s, kept, torn) && Refusal(s, key, expected, size) == None
    ensures key !in torn && Agrees(DirOf(s, key), if key in kept then Some(kept[key]) else None, false)
    ensures expected == |DirOf(s, key)|
  {
    ReadIsExpected(s, kept, torn, key);
  }
}
