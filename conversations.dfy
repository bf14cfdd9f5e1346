/** The conversation card: a daily question, then a browsable history of
    random questions that grows when the user swipes past its end. */
module Conversations {
  import opened Wrappers
  import opened Models
  import ContentData

  /** The text shown when there is no question of the day. */
  const FallbackCardText: string := "Here\U{2019}s a fun question!"

  /** The label text after `resetView`. */
  function DailyCardText(daily: Option<Question>): (r: string)
    ensures daily.Some? ==> r == daily.value.text
    ensures daily.None? ==> r == FallbackCardText
  {
    if daily.Some? then daily.value.text else FallbackCardText
  }

  /** `questionHistory` with `historyIndex`; index -1 is the daily card. */
  datatype History = History(entries: seq<Question>, index: int)

  predicate WellFormed(h: History)
  {
    -1 <= h.index < |h.entries| && (h.index == -1 <==> h.entries == [])
  }

  /** The question on the card, or None while the daily card is up. */
  function Displayed(h: History): Option<Question>
    requires WellFormed(h)
  {
    if h.index == -1 then None else Some(h.entries[h.index])
  }

  /** A left swipe: step forward through the history, or, at its end (the
      daily card included), append `picked` when the picker produced one. */
  function Forward(h: History, picked: Option<Question>): (r: History)
    requires WellFormed(h)
    ensures WellFormed(r)
    ensures |h.entries| <= |r.entries| && r.entries[..|h.entries|] == h.entries
    ensures h.index < |h.entries| - 1 ==> r.entries == h.entries && r.index == h.index + 1
    ensures h.index == |h.entries| - 1 && picked.Some? ==> r.entries == h.entries + [picked.value] && r.index == |h.entries|
    ensures h.index == |h.entries| - 1 && picked.None? ==> r == h
  {
    if h.index == |h.entries| - 1 then
      if picked.None? then h else History(h.entries + [picked.value], h.index + 1)
    else
      History(h.entries, h.index + 1)
  }

  /** A right swipe: one step back, but never from the first entry back to the daily card. */
  function Back(h: History): (r: History)
    requires WellFormed(h)
    ensures WellFormed(r) && r.entries == h.entries
    ensures h.index > 0 ==> r.index == h.index - 1
    ensures h.index <= 0 ==> r == h
  {
    if h.index > 0 then History(h.entries, h.index - 1) else h
  }

  /** Going back and then forward again lands on the same card, without picking anything new. */
  lemma ForwardUndoesBack(h: History, picked: Option<Question>)
    requires WellFormed(h) && h.index > 0
    ensures Forward(Back(h), picked) == h
  {
  }

  /** Going forward and back returns to the card, as long as the forward step moved. */
  lemma BackUndoesForward(h: History, picked: Option<Question>)
    requires WellFormed(h) && h.index >= 0
    requires h.index < |h.entries| - 1 || picked.Some?
    ensures Back(Forward(h, picked)).entries == Forward(h, picked).entries
    ensures Back(Forward(h, picked)).index == h.index
  {
  }

  /** Right swipes from the daily card or the first entry change nothing. */
  lemma BackStopsAtFirstEntry(h: History)
    requires WellFormed(h) && h.index <= 0
    ensures Back(h) == h
    ensures Displayed(Back(h)) == Displayed(h)
  {
  }

  /** Swift's `last` on an array. */
  function Last(s: seq<Question>): (r: Option<Question>)
    ensures r.None? <==> s == []
    ensures r.Some? ==> r.value == s[|s| - 1]
  {
    if s == [] then None else Some(s[|s| - 1])
  }

  predicate NoAdjacentRepeats(s: seq<Question>)
  {
    forall i :: 0 <= i < |s| - 1 ==> !SameQuestion(s[i], s[i + 1])
  }

  /** A catalog from which the picker can always avoid a repeat. */
  predicate CanAvoidRepeats(catalog: seq<Question>)
  {
    |catalog| >= 2 && DistinctQuestionIds(catalog)
  }

  /** With distinct ids no question occurs twice. */
  lemma {:induction false} DistinctIdsOccurOnce(s: seq<Question>, q: Question)
    requires DistinctQuestionIds(s)
    ensures multiset(s)[q] <= 1
  {
    if s != [] {
      assert s == [s[0]] + s[1..];
      assert DistinctQuestionIds(s[1..]) by {
        forall i, j | 0 <= i < j < |s[1..]|
          ensures s[1..][i].id != s[1..][j].id
        {
          assert s[1..][i] == s[i + 1] && s[1..][j] == s[j + 1];
        }
      }
      DistinctIdsOccurOnce(s[1..], q);
      if s[0] == q {
        assert q !in s[1..] by {
          forall k | 0 <= k < |s[1..]|
            ensures s[1..][k] != q
          {
            assert s[1..][k] == s[k + 1];
          }
        }
      }
    }
  }

  /** The first two entries of any shuffle of a catalog with distinct ids differ. */
  lemma ShuffleHeadsDiffer(catalog: seq<Question>, pool: seq<Question>)
    requires DistinctQuestionIds(catalog) && multiset(pool) == multiset(catalog) && |pool| >= 2
    ensures !SameQuestion(pool[0], pool[1])
  {
    assert pool == [pool[0], pool[1]] + pool[2..];
    assert pool[0] in multiset(catalog) && pool[1] in multiset(catalog);
    if pool[0] == pool[1] {
      assert multiset(pool)[pool[0]] >= 2;
      DistinctIdsOccurOnce(catalog, pool[0]);
    } else {
      var i :| 0 <= i < |catalog| && catalog[i] == pool[0];
      var j :| 0 <= j < |catalog| && catalog[j] == pool[1];
      assert i != j;
      if i < j {
        assert catalog[i].id != catalog[j].id;
      } else {
        assert catalog[j].id != catalog[i].id;
      }
    }
  }

  /** The part of ConversationsViewController that holds the question state. */
  class ConversationsScreen {
    const allQuestions: seq<Question>
    var questionHistory: seq<Question>
    var historyIndex: int
    var hasDismissedSwipeHint: bool
    /** The question label's text. */
    var cardText: string

    function Current(): History
      reads this
    {
      History(questionHistory, historyIndex)
    }

    ghost predicate Valid()
      reads this
    {
      && WellFormed(Current())
      && (forall q :: q in questionHistory ==> q in allQuestions)
      && (CanAvoidRepeats(allQuestions) ==> NoAdjacentRepeats(questionHistory))
    }

    /** `viewDidLoad` with `loadContent`: the daily card, an empty history, the hint not yet dismissed. */
    constructor (catalog: seq<Question>)
      ensures Valid()
      ensures allQuestions == catalog
      ensures questionHistory == [] && historyIndex == -1 && !hasDismissedSwipeHint
    {
      allQuestions := catalog;
      questionHistory := [];
      historyIndex := -1;
      hasDismissedSwipeHint := false;
      cardText := "";
    }

    /** `nextRandomQuestionAvoidingRepeat`: the head of a shuffled catalog,
        with the first two swapped when the head equals `last`. */
    method NextRandomQuestionAvoidingRepeat(last: Option<Question>) returns (r: Option<Question>)
      ensures r.None? <==> allQuestions == []
      ensures r.Some? ==> r.value in allQuestions
      ensures |allQuestions| == 1 ==> r == Some(allQuestions[0])
      ensures last.Some? && CanAvoidRepeats(allQuestions) ==> !SameQuestion(r.value, last.value)
    {
      assert multiset(allQuestions) == multiset(allQuestions);
      var pool :| multiset(pool) == multiset(allQuestions);
      if last.Some? && |pool| > 0 && SameQuestion(pool[0], last.value) && |pool| > 1 {
        pool := pool[0 := pool[1]][1 := pool[0]];
        assert multiset(pool) == multiset(allQuestions);
      }
      if pool == [] {
        assert |multiset(allQuestions)| == 0;
        return None;
      }
      assert pool[0] in multiset(allQuestions);
      if |allQuestions| == 1 {
        assert multiset(allQuestions) == multiset{allQuestions[0]};
      }
      if last.Some? && CanAvoidRepeats(allQuestions) && SameQuestion(pool[0], last.value) {
        ShuffleHeadsDiffer(allQuestions, pool);
      }
      r := Some(pool[0]);
    }

    /** `didSwipeLeft`. */
    method SwipeLeft()
      requires Valid()
      modifies this
      ensures Valid()
      ensures hasDismissedSwipeHint
      ensures Current() == Forward(old(Current()), Last(questionHistory))
      ensures old(historyIndex) < old(|questionHistory|) - 1 ==>
                questionHistory == old(questionHistory) && historyIndex == old(historyIndex) + 1
      ensures old(historyIndex) == old(|questionHistory|) - 1 && allQuestions != [] ==>
                && |questionHistory| == old(|questionHistory|) + 1
                && questionHistory[..old(|questionHistory|)] == old(questionHistory)
                && historyIndex == old(historyIndex) + 1
                && questionHistory[historyIndex] in allQuestions
                && (old(questionHistory) != [] && CanAvoidRepeats(allQuestions) ==>
                      !SameQuestion(questionHistory[historyIndex], old(questionHistory)[old(historyIndex)]))
      ensures allQuestions != [] ==> Displayed(Current()).Some? && cardText == Displayed(Current()).value.text
      ensures allQuestions == [] ==> Current() == old(Current()) && cardText == old(cardText)
    {
      if questionHistory != [] {
        assert questionHistory[0] in allQuestions;
      }
      if !hasDismissedSwipeHint {
        hasDismissedSwipeHint := true;
      }
      if historyIndex == -1 {
        var lastShown := Last(questionHistory);
        var q := NextRandomQuestionAvoidingRepeat(lastShown);
        if q.Some? {
          assert [q.value] == questionHistory + [q.value];
          questionHistory := [q.value];
          historyIndex := 0;
          cardText := q.value.text;
        }
        return;
      }
      if historyIndex == |questionHistory| - 1 {
        var q := NextRandomQuestionAvoidingRepeat(Last(questionHistory));
        if q.Some? {
          questionHistory := questionHistory + [q.value];
          historyIndex := historyIndex + 1;
          cardText := q.value.text;
        }
      } else {
        historyIndex := historyIndex + 1;
        var next := questionHistory[historyIndex];
        cardText := next.text;
      }
    }

    /** `didSwipeRight`. */
    method SwipeRight()
      requires Valid()
      modifies this
      ensures Valid()
      ensures Current() == Back(old(Current()))
      ensures old(historyIndex) > 0 ==> cardText == questionHistory[historyIndex].text
      ensures old(historyIndex) <= 0 ==> cardText == old(cardText)
      ensures hasDismissedSwipeHint == old(hasDismissedSwipeHint)
    {
      if historyIndex <= 0 {
        return;
      }
      historyIndex := historyIndex - 1;
      var prev := questionHistory[historyIndex];
      cardText := prev.text;
    }

    /** `resetView`: back to the daily card with the question of the day
        (for the given day of the year) and an empty history. */
    method ResetView(dayOfYear: Option<ContentData.DayOfYear>)
      requires Valid()
      modifies this
      ensures Valid()
      ensures questionHistory == [] && historyIndex == -1
      ensures dayOfYear.Some? ==> cardText == DailyCardText(ContentData.DailyQuestion(allQuestions, dayOfYear.value))
      ensures allQuestions == [] ==> cardText == FallbackCardText
      ensures allQuestions != [] ==> exists q :: q in allQuestions && cardText == q.text
      ensures hasDismissedSwipeHint == old(hasDismissedSwipeHint)
    {
      var daily := ContentData.GetQuestionOfTheDay(allQuestions, dayOfYear);
      cardText := DailyCardText(daily);
      questionHistory := [];
      historyIndex := -1;
    }
  }
}
