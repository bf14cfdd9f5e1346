/** The secondary moments grid: one month, or any predicate such as "liked". */
module FilteredMoments {
  import opened Wrappers
  import opened Models
  import opened Seqs
  import opened Persistence
  import opened MomentsList
  import MyMoments

  datatype Mode = ByMonth(date: Instant) | ByPredicate(title: string, filter: Memory -> bool)

  /** `navTitle`; `monthTitle` stands for the "MMMM yyyy" date formatter. */
  function NavTitle(mode: Mode, monthTitle: Instant -> string): (r: string)
    ensures mode.ByPredicate? ==> r == mode.title
    ensures mode.ByMonth? ==> r == monthTitle(mode.date)
  {
    match mode
    case ByMonth(date) => monthTitle(date)
    case ByPredicate(title, _) => title
  }

  /** The filter a mode applies. */
  function Keeps(mode: Mode, calendar: Instant -> YearMonth): Memory -> bool
  {
    match mode
    case ByMonth(date) => (m: Memory) => SameMonth(calendar, m.date, date)
    case ByPredicate(_, filter) => filter
  }

  /** What `loadAndFilterData` shows after reading `f`. */
  function View(f: FileState, mode: Mode, calendar: Instant -> YearMonth): (r: seq<Memory>)
  {
    Filter(MyMoments.LoadedNewestFirst(f), Keeps(mode, calendar))
  }

  /** The grid shows exactly the stored memories the mode keeps, newest first. */
  lemma ViewIsExactAndNewestFirst(f: FileState, mode: Mode, calendar: Instant -> YearMonth)
    ensures forall m :: m in View(f, mode, calendar) <==> m in Loaded(f) && Keeps(mode, calendar)(m)
    ensures SortedNewestFirst(View(f, mode, calendar))
  {
    var all := MyMoments.LoadedNewestFirst(f);
    FilterKeepsNewestFirst(all, Keeps(mode, calendar));
    forall m
      ensures m in all <==> m in Loaded(f)
    {
      assert m in all <==> m in multiset(all);
    }
  }

  /** A month grid lists the same memories, in the same order, as the main
      list filtered to that month. */
  lemma MonthViewMatchesMainList(f: FileState, date: Instant, calendar: Instant -> YearMonth)
    ensures View(f, ByMonth(date), calendar) == InMonth(MyMoments.LoadedNewestFirst(f), calendar, date)
  {
  }

  /** The grid `didTapLiked` opens. */
  const LikedMoments: Mode := ByPredicate("Liked Moments", (m: Memory) => m.isLiked)

  /** After a successful unlike, no stored memory with that id is liked
      (ids in the file are distinct). */
  lemma UnlikedInFile(s: seq<Memory>, i: nat)
    requires i < |s| && DistinctMemoryIds(s)
    ensures forall m :: m in Loaded(AfterUpdate(Stored(s), ToggledLike(s[i]), true)) && m.id == s[i].id
              ==> m.isLiked == !s[i].isLiked
  {
    var u := ToggledLike(s[i]);
    UpdateReplacesOnlyMatch(Stored(s), u, i);
    var after := Loaded(AfterUpdate(Stored(s), u, true));
    forall k | 0 <= k < |s| && k != i
      ensures s[k].id != s[i].id
    {
      if k < i {
        assert s[k].id != s[i].id;
      } else {
        assert s[i].id != s[k].id;
      }
    }
    forall m | m in after && m.id == s[i].id
      ensures m.isLiked == !s[i].isLiked
    {
      var k :| 0 <= k < |after| && after[k] == m;
    }
  }

  /** Unliking a memory from the liked grid removes it from the grid once
      the write succeeds (ids in the file are distinct). */
  lemma UnlikingLeavesLikedView(s: seq<Memory>, i: nat, calendar: Instant -> YearMonth)
    requires i < |s| && DistinctMemoryIds(s) && s[i].isLiked
    ensures s[i] in View(Stored(s), LikedMoments, calendar)
    ensures forall m :: m in View(AfterUpdate(Stored(s), ToggledLike(s[i]), true), LikedMoments, calendar) ==> m.id != s[i].id
  {
    ViewIsExactAndNewestFirst(Stored(s), LikedMoments, calendar);
    var after := AfterUpdate(Stored(s), ToggledLike(s[i]), true);
    ViewIsExactAndNewestFirst(after, LikedMoments, calendar);
    UnlikedInFile(s, i);
  }

  /** The part of FilteredMomentsViewController that holds the list state. */
  class FilteredMomentsScreen {
    const store: PersistenceManager
    const calendar: Instant -> YearMonth
    const mode: Mode
    var filteredMemories: seq<Memory>

    constructor (store: PersistenceManager, calendar: Instant -> YearMonth, mode: Mode)
      ensures this.store == store && this.calendar == calendar && this.mode == mode
      ensures filteredMemories == []
    {
      this.store := store;
      this.calendar := calendar;
      this.mode := mode;
      filteredMemories := [];
    }

    /** `loadAndFilterData`. */
    method LoadAndFilterData()
      modifies this
      ensures filteredMemories == View(store.file, mode, calendar)
    {
      var loaded := store.LoadMemories();
      var all := SortNewestFirst(loaded);
      match mode
      case ByMonth(date) =>
        filteredMemories := Filter(all, (m: Memory) => SameMonth(calendar, m.date, date));
      case ByPredicate(_, filter) =>
        filteredMemories := Filter(all, filter);
    }

    /** `toggleLike`: persist the flipped copy, then refilter from the store. */
    method ToggleLike(memory: Memory, writeOk: bool)
      modifies this, store
      ensures store.file == AfterUpdate(old(store.file), ToggledLike(memory), writeOk)
      ensures filteredMemories == View(store.file, mode, calendar)
    {
      var updated := ToggledLike(memory);
      store.UpdateMemory(updated, writeOk);
      LoadAndFilterData();
    }
  }
}
