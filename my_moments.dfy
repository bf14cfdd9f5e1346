/** The main moments screen: every stored memory newest first, optionally
    narrowed to one month, shown as a snapshot of at most eleven. */
module MyMoments {
  import opened Wrappers
  import opened Models
  import opened Persistence
  import opened MomentsList
  import opened Seqs

  /** What the list holds once `loadData` has read `f`. */
  function LoadedNewestFirst(f: FileState): (r: seq<Memory>)
    ensures SortedNewestFirst(r) && multiset(r) == multiset(Loaded(f))
  {
    SortNewestFirst(Loaded(f))
  }

  /** A like toggled from the list flips that entry of the in-memory list
      and nothing else; a memory no longer listed leaves the list alone. */
  lemma ToggleLikeFlipsOnlyThatEntry(list: seq<Memory>, i: nat)
    requires i < |list| && DistinctMemoryIds(list)
    ensures |ReplaceFirstById(list, ToggledLike(list[i]))| == |list|
    ensures ReplaceFirstById(list, ToggledLike(list[i]))[i].isLiked == !list[i].isLiked
    ensures ReplaceFirstById(list, ToggledLike(list[i]))[i].(isLiked := list[i].isLiked) == list[i]
    ensures forall j :: 0 <= j < |list| && j != i ==> ReplaceFirstById(list, ToggledLike(list[i]))[j] == list[j]
  {
    ReplaceFirstByIdSpec(list, ToggledLike(list[i]), i);
  }

  /** The part of MyMomentsViewController that holds the list state. */
  class MyMomentsScreen {
    const store: PersistenceManager
    /** The user's calendar, which decides what "the same month" means. */
    const calendar: Instant -> YearMonth
    var allMemories: seq<Memory>
    var currentFilterDate: Option<Instant>
    var snapshot: Snapshot

    constructor (store: PersistenceManager, calendar: Instant -> YearMonth)
      ensures this.store == store && this.calendar == calendar
      ensures allMemories == [] && currentFilterDate == None
    {
      this.store := store;
      this.calendar := calendar;
      allMemories := [];
      currentFilterDate := None;
      snapshot := Snapshot([], []);
    }

    /** `filteredMemories`: everything, or the memories in the selected month, in list order. */
    function FilteredMemories(): (r: seq<Memory>)
      reads this
      ensures currentFilterDate.None? ==> r == allMemories
      ensures forall m :: m in r <==>
                m in allMemories && (currentFilterDate.None? || SameMonth(calendar, m.date, currentFilterDate.value))
      ensures IsSubsequence(r, allMemories)
      ensures forall m :: multiset(r)[m] ==
                if currentFilterDate.None? || SameMonth(calendar, m.date, currentFilterDate.value)
                then multiset(allMemories)[m] else 0
      ensures SortedNewestFirst(allMemories) ==> SortedNewestFirst(r)
    {
      if currentFilterDate.None? then
        SubsequenceOfItself(allMemories);
        allMemories
      else InMonth(allMemories, calendar, currentFilterDate.value)
    }

    /** `updateSnapshot`; `placeholder` is the fresh id an empty list's item gets. */
    method UpdateSnapshot(placeholder: Uuid)
      modifies this
      ensures snapshot == SnapshotOf(FilteredMemories(), placeholder)
      ensures allMemories == old(allMemories) && currentFilterDate == old(currentFilterDate)
    {
      var list := FilteredMemories();
      snapshot := SnapshotOf(list, placeholder);
    }

    /** `loadData`, also run after a memory is saved. */
    method LoadData(placeholder: Uuid)
      modifies this
      ensures allMemories == LoadedNewestFirst(store.file)
      ensures snapshot == SnapshotOf(FilteredMemories(), placeholder)
      ensures currentFilterDate == old(currentFilterDate)
    {
      var loaded := store.LoadMemories();
      allMemories := SortNewestFirst(loaded);
      UpdateSnapshot(placeholder);
    }

    /** `toggleLike`: persist the flipped copy, then patch the first list entry with its id. */
    method ToggleLike(memory: Memory, writeOk: bool, placeholder: Uuid)
      modifies this, store
      ensures store.file == AfterUpdate(old(store.file), ToggledLike(memory), writeOk)
      ensures allMemories == ReplaceFirstById(old(allMemories), ToggledLike(memory))
      ensures currentFilterDate == old(currentFilterDate)
      ensures snapshot == SnapshotOf(FilteredMemories(), placeholder)
    {
      var updated := ToggledLike(memory);
      store.UpdateMemory(updated, writeOk);
      var idx := FirstIndexWithId(allMemories, updated.id);
      if idx.Some? {
        allMemories := allMemories[idx.value := updated];
      }
      UpdateSnapshot(placeholder);
    }

    /** `didTapShowAll`: drop the month and reload from the store. */
    method DidTapShowAll(placeholder: Uuid)
      modifies this
      ensures currentFilterDate == None
      ensures allMemories == LoadedNewestFirst(store.file)
      ensures snapshot == SnapshotOf(allMemories, placeholder)
      ensures Shown(snapshot) == allMemories[..Min(11, |allMemories|)]
    {
      currentFilterDate := None;
      LoadData(placeholder);
      SnapshotShowsNewestEleven(allMemories, placeholder);
    }

    /** `didSelectDate`: keep only that month, reload, and show the newest of it. */
    method DidSelectDate(date: Instant, placeholder: Uuid)
      modifies this
      ensures currentFilterDate == Some(date)
      ensures allMemories == LoadedNewestFirst(store.file)
      ensures snapshot == SnapshotOf(InMonth(allMemories, calendar, date), placeholder)
      ensures SortedNewestFirst(FilteredMemories())
      ensures forall m :: m in Shown(snapshot) ==> m in Loaded(store.file) && SameMonth(calendar, m.date, date)
    {
      currentFilterDate := Some(date);
      LoadData(placeholder);
      UpdateSnapshot(placeholder);
      SnapshotShowsNewestEleven(FilteredMemories(), placeholder);
      forall m | m in Shown(snapshot)
        ensures m in Loaded(store.file) && SameMonth(calendar, m.date, date)
      {
        assert m in FilteredMemories();
        assert m in multiset(allMemories);
      }
    }
  }
}
