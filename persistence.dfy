/** The memory store: one list of memories kept whole in a single file,
    read and rewritten as a unit. */
module Persistence {
  import opened Wrappers
  import opened Models
  import opened Seqs

  /** What the memories file holds, as the JSON decoder sees it. */
  datatype FileState = Missing | Corrupt | Stored(memories: seq<Memory>)

  /** The list `loadMemories` returns: nothing for a missing file or one that
      does not decode, the decoded list otherwise. */
  function Loaded(f: FileState): seq<Memory>
  {
    match f
    case Stored(ms) => ms
    case _ => []
  }

  /** `firstIndex(where: { $0.id == id })`. */
  function FirstIndexWithId(s: seq<Memory>, id: Uuid): (r: Option<nat>)
    ensures r.Some? ==> r.value < |s| && s[r.value].id == id
    ensures r.Some? ==> forall j :: 0 <= j < r.value ==> s[j].id != id
    ensures r.None? <==> forall j :: 0 <= j < |s| ==> s[j].id != id
  {
    if s == [] then None
    else if s[0].id == id then Some(0)
    else match FirstIndexWithId(s[1..], id)
      case None => None
      case Some(k) => Some(k + 1)
  }

  /** The list `updateMemory` saves: the first entry with `u`'s id replaced by `u`. */
  function ReplaceFirstById(s: seq<Memory>, u: Memory): seq<Memory>
  {
    match FirstIndexWithId(s, u.id)
    case None => s
    case Some(i) => s[i := u]
  }

  /** The file after `saveMemories(ms)`: the write is atomic, so a failed
      encode or write leaves the old file in place. */
  function AfterSave(f: FileState, ms: seq<Memory>, writeOk: bool): FileState
  {
    if writeOk then Stored(ms) else f
  }

  /** The file after `addMemory(m)`. */
  function AfterAdd(f: FileState, m: Memory, writeOk: bool): FileState
  {
    AfterSave(f, [m] + Loaded(f), writeOk)
  }

  /** The file after `updateMemory(u)`: no save at all when no id matches. */
  function AfterUpdate(f: FileState, u: Memory, writeOk: bool): FileState
  {
    match FirstIndexWithId(Loaded(f), u.id)
    case None => f
    case Some(i) => AfterSave(f, Loaded(f)[i := u], writeOk)
  }

  /** The store. `file` stands for the memories file in the documents directory. */
  class PersistenceManager {
    var file: FileState

    constructor (initial: FileState)
      ensures file == initial
    {
      file := initial;
    }

    /** `loadMemories`: never fails, and reading leaves the file as it is. */
    method LoadMemories() returns (memories: seq<Memory>)
      ensures memories == Loaded(file)
      ensures !file.Stored? ==> memories == []
    {
      match file
      case Missing =>
        return [];
      case Corrupt =>
        return [];
      case Stored(decoded) =>
        return decoded;
    }

    /** `saveMemories`; `writeOk` is whether encoding and the atomic write succeed. */
    method SaveMemories(memories: seq<Memory>, writeOk: bool)
      modifies this
      ensures file == AfterSave(old(file), memories, writeOk)
    {
      if writeOk {
        file := Stored(memories);
      }
    }

    /** `addMemory`: load, insert at the front, save. */
    method AddMemory(memory: Memory, writeOk: bool)
      modifies this
      ensures file == AfterAdd(old(file), memory, writeOk)
    {
      var memories := LoadMemories();
      memories := [memory] + memories;
      SaveMemories(memories, writeOk);
    }

    /** `updateMemory`: load, replace the first entry with the same id, save;
        nothing is saved when no entry has that id. */
    method UpdateMemory(updated: Memory, writeOk: bool)
      modifies this
      ensures file == AfterUpdate(old(file), updated, writeOk)
    {
      var memories := LoadMemories();
      var index := FirstIndexWithId(memories, updated.id);
      if index.Some? {
        memories := memories[index.value := updated];
        SaveMemories(memories, writeOk);
      }
    }
  }

  // ------------------------------------------------------------ properties

  /** Saving a list and loading it back gives that list; a failed save changes nothing. */
  lemma SaveThenLoad(f: FileState, ms: seq<Memory>)
    ensures Loaded(AfterSave(f, ms, true)) == ms
    ensures AfterSave(f, ms, false) == f
  {
  }

  /** A missing or undecodable file loads as the empty list. */
  lemma UnreadableLoadsEmpty(f: FileState)
    requires f.Missing? || f.Corrupt?
    ensures Loaded(f) == []
  {
  }

  /** Adding puts the new memory at index 0 in front of what was loaded. */
  lemma AddPrepends(f: FileState, m: Memory)
    ensures Loaded(AfterAdd(f, m, true)) == [m] + Loaded(f)
    ensures |Loaded(AfterAdd(f, m, true))| == |Loaded(f)| + 1
    ensures Loaded(AfterAdd(f, m, true))[0] == m
    ensures AfterAdd(f, m, false) == f
  {
  }

  /** Adding to a missing or corrupt file stores the one memory: whatever
      the corrupt file held is overwritten. */
  lemma AddOverwritesUnreadable(f: FileState, m: Memory)
    requires f.Missing? || f.Corrupt?
    ensures AfterAdd(f, m, true) == Stored([m])
  {
  }

  /** The file after a run of successful adds, in call order. */
  function AddAll(f: FileState, ms: seq<Memory>): FileState
    decreases |ms|
  {
    if ms == [] then f else AddAll(AfterAdd(f, ms[0], true), ms[1..])
  }

  /** After N adds the list holds the N memories newest first, in front of the old list. */
  lemma {:induction false} AddsLoadNewestFirst(f: FileState, ms: seq<Memory>)
    ensures Loaded(AddAll(f, ms)) == Reversed(ms) + Loaded(f)
    decreases |ms|
  {
    if ms != [] {
      AddsLoadNewestFirst(AfterAdd(f, ms[0], true), ms[1..]);
      assert Reversed(ms) == Reversed(ms[1..]) + [ms[0]];
    }
  }

  /** Replacing touches exactly the first entry with `u`'s id and keeps the length. */
  lemma ReplaceFirstByIdSpec(s: seq<Memory>, u: Memory, i: nat)
    requires i < |s| && s[i].id == u.id
    requires forall j :: 0 <= j < i ==> s[j].id != u.id
    ensures |ReplaceFirstById(s, u)| == |s|
    ensures ReplaceFirstById(s, u)[i] == u
    ensures forall j :: 0 <= j < |s| && j != i ==> ReplaceFirstById(s, u)[j] == s[j]
  {
    assert FirstIndexWithId(s, u.id) == Some(i);
  }

  /** Updating with a matching id saves the list with only that entry replaced. */
  lemma UpdateReplacesOnlyMatch(f: FileState, u: Memory, i: nat)
    requires i < |Loaded(f)| && Loaded(f)[i].id == u.id
    requires forall j :: 0 <= j < i ==> Loaded(f)[j].id != u.id
    ensures AfterUpdate(f, u, true) == Stored(ReplaceFirstById(Loaded(f), u))
    ensures |Loaded(AfterUpdate(f, u, true))| == |Loaded(f)|
    ensures Loaded(AfterUpdate(f, u, true))[i] == u
    ensures forall j :: 0 <= j < |Loaded(f)| && j != i ==> Loaded(AfterUpdate(f, u, true))[j] == Loaded(f)[j]
  {
    ReplaceFirstByIdSpec(Loaded(f), u, i);
  }

  /** With no matching id nothing is saved, whatever the file held (a corrupt file stays corrupt). */
  lemma UpdateWithoutMatchIsNoOp(f: FileState, u: Memory, writeOk: bool)
    requires forall j :: 0 <= j < |Loaded(f)| ==> Loaded(f)[j].id != u.id
    ensures AfterUpdate(f, u, writeOk) == f
  {
  }

  /** The first entry with an id keeps being the first after it is replaced. */
  lemma {:induction false} FirstIndexAfterReplace(s: seq<Memory>, u: Memory, v: Memory)
    requires u.id == v.id
    ensures FirstIndexWithId(ReplaceFirstById(s, u), v.id) == FirstIndexWithId(s, v.id)
  {
    match FirstIndexWithId(s, u.id)
    case None =>
    case Some(i) =>
      var t := s[i := u];
      assert t[i].id == v.id;
  }

  /** Updating twice with the same record is the same as updating once. */
  lemma UpdateIdempotent(f: FileState, u: Memory)
    ensures AfterUpdate(AfterUpdate(f, u, true), u, true) == AfterUpdate(f, u, true)
  {
    match FirstIndexWithId(Loaded(f), u.id)
    case None =>
    case Some(i) =>
      var t := Loaded(f)[i := u];
      FirstIndexAfterReplace(Loaded(f), u, u);
      assert FirstIndexWithId(t, u.id) == Some(i);
      assert t[i := u] == t;
  }

  /** Writing back the stored entry itself leaves a stored file unchanged. */
  lemma UpdateWithStoredEntryIsNoChange(s: seq<Memory>, i: nat)
    requires i < |s| && forall j :: 0 <= j < i ==> s[j].id != s[i].id
    ensures AfterUpdate(Stored(s), s[i], true) == Stored(s)
  {
    assert FirstIndexWithId(s, s[i].id) == Some(i);
    assert s[i := s[i]] == s;
  }
}
