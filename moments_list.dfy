/** What the two moment lists share: newest-first ordering, the month
    filter, and the sections of the main list. */
module MomentsList {
  import opened Wrappers
  import opened Models
  import opened Seqs

  predicate SortedNewestFirst(s: seq<Memory>)
  {
    forall i, j :: 0 <= i < j < |s| ==> s[i].date >= s[j].date
  }

  /** Puts `m` before the first entry that is strictly older. */
  function InsertByDate(m: Memory, s: seq<Memory>): (r: seq<Memory>)
    ensures multiset(r) == multiset(s) + multiset{m}
    ensures |r| == |s| + 1
  {
    if s == [] || m.date >= s[0].date then
      [m] + s
    else
      assert s == [s[0]] + s[1..];
      [s[0]] + InsertByDate(m, s[1..])
  }

  lemma TailNewestFirst(s: seq<Memory>)
    requires s != [] && SortedNewestFirst(s)
    ensures SortedNewestFirst(s[1..])
    ensures forall j :: 0 <= j < |s[1..]| ==> s[0].date >= s[1..][j].date
  {
    forall i, j | 0 <= i < j < |s[1..]|
      ensures s[1..][i].date >= s[1..][j].date
    {
      assert s[1..][i] == s[i + 1] && s[1..][j] == s[j + 1];
    }
    forall j | 0 <= j < |s[1..]|
      ensures s[0].date >= s[1..][j].date
    {
      assert s[1..][j] == s[j + 1];
    }
  }

  lemma PrependNewestFirst(x: Memory, t: seq<Memory>)
    requires SortedNewestFirst(t)
    requires forall j :: 0 <= j < |t| ==> x.date >= t[j].date
    ensures SortedNewestFirst([x] + t)
  {
    var r := [x] + t;
    forall i, j | 0 <= i < j < |r|
      ensures r[i].date >= r[j].date
    {
      assert r[j] == t[j - 1];
      if i > 0 {
        assert r[i] == t[i - 1];
      }
    }
  }

  lemma {:induction false} InsertByDateKeepsNewestFirst(m: Memory, s: seq<Memory>)
    requires SortedNewestFirst(s)
    ensures SortedNewestFirst(InsertByDate(m, s))
  {
    if s == [] {
      PrependNewestFirst(m, s);
    } else if m.date >= s[0].date {
      TailNewestFirst(s);
      assert forall j :: 0 <= j < |s| ==> m.date >= s[j].date by {
        forall j | 0 <= j < |s|
          ensures m.date >= s[j].date
        {
          if j > 0 {
            assert s[j] == s[1..][j - 1];
          }
        }
      }
      PrependNewestFirst(m, s);
    } else {
      var tail := s[1..];
      TailNewestFirst(s);
      InsertByDateKeepsNewestFirst(m, tail);
      var rest := InsertByDate(m, tail);
      forall j | 0 <= j < |rest|
        ensures s[0].date >= rest[j].date
      {
        assert rest[j] in multiset(rest);
        if rest[j] != m {
          assert rest[j] in multiset(tail);
          var k :| 0 <= k < |tail| && tail[k] == rest[j];
        }
      }
      PrependNewestFirst(s[0], rest);
    }
  }

  /** `sorted { $0.date > $1.date }`: the memories, newest first. */
  function SortNewestFirst(s: seq<Memory>): (r: seq<Memory>)
    ensures SortedNewestFirst(r)
    ensures multiset(r) == multiset(s)
    ensures |r| == |s|
  {
    if s == [] then []
    else
      assert s == [s[0]] + s[1..];
      InsertByDateKeepsNewestFirst(s[0], SortNewestFirst(s[1..]));
      InsertByDate(s[0], SortNewestFirst(s[1..]))
  }

  /** Calendar year and month of an instant in the user's time zone. */
  datatype YearMonth = YearMonth(year: int, month: int)

  /** `Calendar.isDate(_:equalTo:toGranularity: .month)`. */
  predicate SameMonth(calendar: Instant -> YearMonth, a: Instant, b: Instant)
  {
    calendar(a) == calendar(b)
  }

  function InMonth(list: seq<Memory>, calendar: Instant -> YearMonth, month: Instant): (r: seq<Memory>)
    ensures forall m :: m in r <==> m in list && SameMonth(calendar, m.date, month)
    ensures forall m :: multiset(r)[m] == if SameMonth(calendar, m.date, month) then multiset(list)[m] else 0
    ensures IsSubsequence(r, list)
    ensures SortedNewestFirst(list) ==> SortedNewestFirst(r)
  {
    var inMonth := (m: Memory) => SameMonth(calendar, m.date, month);
    FilterIsSubsequence(list, inMonth);
    FilterMultiplicity(list, inMonth);
    if SortedNewestFirst(list) then
      FilterKeepsNewestFirst(list, inMonth);
      Filter(list, inMonth)
    else
      Filter(list, inMonth)
  }

  /** Filtering a newest-first list leaves it newest first. */
  lemma {:induction false} FilterKeepsNewestFirst(s: seq<Memory>, p: Memory -> bool)
    requires SortedNewestFirst(s)
    ensures SortedNewestFirst(Filter(s, p))
  {
    if s != [] {
      assert SortedNewestFirst(s[1..]) by {
        forall i, j | 0 <= i < j < |s[1..]|
          ensures s[1..][i].date >= s[1..][j].date
        {
          assert s[1..][i] == s[i + 1] && s[1..][j] == s[j + 1];
        }
      }
      FilterKeepsNewestFirst(s[1..], p);
      var tail := Filter(s[1..], p);
      if p(s[0]) {
        assert Filter(s, p) == [s[0]] + tail;
        forall j | 0 <= j < |tail|
          ensures s[0].date >= tail[j].date
        {
          assert tail[j] in s[1..];
          var k :| 0 <= k < |s[1..]| && s[1..][k] == tail[j];
          assert s[k + 1] == tail[j];
        }
      } else {
        assert Filter(s, p) == tail;
      }
    }
  }

  /** The main list's sections: a lone placeholder, or the newest moment and the recent ones. */
  datatype Section = EmptySection | Top | Recent

  function SectionTitle(s: Section): (r: string)
    ensures s.EmptySection? <==> r == ""
  {
    match s
    case EmptySection => ""
    case Top => "Newest Moment"
    case Recent => "Recent Moments"
  }

  datatype Item = EmptyItem(placeholder: Uuid) | TopMemory(memory: Memory) | RecentMemory(memory: Memory)

  /** An applied snapshot: the sections in order, each with its items. */
  datatype Snapshot = Snapshot(sections: seq<Section>, items: seq<seq<Item>>)

  /** `updateSnapshot`: a placeholder (with the fresh id `placeholder`) for an
      empty list, else the first memory on top and up to ten after it. */
  function SnapshotOf(list: seq<Memory>, placeholder: Uuid): Snapshot
  {
    if list == [] then
      Snapshot([EmptySection], [[EmptyItem(placeholder)]])
    else
      var rest := list[1..][..Min(10, |list| - 1)];
      Snapshot([Top, Recent], [[TopMemory(list[0])], seq(|rest|, i requires 0 <= i < |rest| => RecentMemory(rest[i]))])
  }

  function Min(a: int, b: int): int
  {
    if a <= b then a else b
  }

  /** The memories a snapshot shows, top to bottom. */
  function Shown(snapshot: Snapshot): seq<Memory>
  {
    if snapshot.sections == [Top, Recent] && |snapshot.items| == 2 then
      Memories(snapshot.items[0]) + Memories(snapshot.items[1])
    else
      []
  }

  function Memories(items: seq<Item>): (r: seq<Memory>)
    ensures |r| <= |items|
  {
    if items == [] then []
    else (if items[0].EmptyItem? then [] else [items[0].memory]) + Memories(items[1..])
  }

  lemma {:induction false} MemoriesOfRecent(s: seq<Memory>)
    ensures Memories(seq(|s|, i requires 0 <= i < |s| => RecentMemory(s[i]))) == s
  {
    var items := seq(|s|, i requires 0 <= i < |s| => RecentMemory(s[i]));
    if s != [] {
      assert items[1..] == seq(|s[1..]|, i requires 0 <= i < |s[1..]| => RecentMemory(s[1..][i]));
      MemoriesOfRecent(s[1..]);
    }
  }

  /** An empty list shows only the placeholder; otherwise the snapshot shows
      the first eleven memories in list order, the first one on top. */
  lemma SnapshotShowsNewestEleven(list: seq<Memory>, placeholder: Uuid)
    ensures list == [] <==> SnapshotOf(list, placeholder).sections == [EmptySection]
    ensures list == [] ==> SnapshotOf(list, placeholder).items == [[EmptyItem(placeholder)]]
    ensures Shown(SnapshotOf(list, placeholder)) == list[..Min(11, |list|)]
    ensures list != [] ==> SnapshotOf(list, placeholder).items[0] == [TopMemory(list[0])]
    ensures list != [] ==> |SnapshotOf(list, placeholder).items[1]| == Min(10, |list| - 1)
  {
    if list != [] {
      var rest := list[1..][..Min(10, |list| - 1)];
      MemoriesOfRecent(rest);
      assert Memories([TopMemory(list[0])]) == [list[0]];
      assert [list[0]] + rest == list[..Min(11, |list|)];
    }
  }
}
