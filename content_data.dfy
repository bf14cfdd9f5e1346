/** The static catalogs shipped with the app (55 activities, 35 questions)
    and the question-of-the-day selector. */
module ContentData {
  import opened Wrappers
  import opened Models

  /** `ContentData.activities`, in source order. */
  const Activities: seq<Activity> :=
    OriginalActivities + BundledActivities1 + BundledActivities2
    + BundledActivities3 + BundledActivities4 + BundledActivities5

  /** The first five entries (lines 18-22). */
  const OriginalActivities: seq<Activity> := [
    Activity("Build a pillow fort in the living room.", "Indoors", ["Preschool", "Kids", "Teens"]),
    Activity("Find 5 red things in the house.", "Indoors", ["Toddler", "Preschool"]),
    Activity("Have an indoor picnic (on the floor!).", "Indoors", ["Toddler", "Preschool", "Kids"]),
    Activity("Draw a map of your neighborhood.", "Indoors", ["Kids", "Teens"]),
    Activity("Play 'I Spy' for 10 minutes.", "Indoors", ["Toddler", "Preschool"])
  ]

  /** Entries 1-10 of the fifty bundled ones (lines 25-34). */
  const BundledActivities1: seq<Activity> := [
    Activity("Make shadow puppets on the wall.", "Indoors", ["Preschool", "Kids"]),
    Activity("Play 'I Spy' with things in the room.", "Indoors", ["Toddler", "Preschool"]),
    Activity("Have a 'Floor is Lava' game across the living room.", "Active", ["Preschool", "Kids", "Teens"]),
    Activity("Make paper airplanes and have a flight contest.", "Creative", ["Kids", "Tweens"]),
    Activity("Tell a story one sentence at a time, taking turns.", "Creative", ["Preschool", "Kids", "Teens"]),
    Activity("See who can balance on one foot the longest.", "Active", ["Preschool", "Kids", "Teens"]),
    Activity("Draw a portrait of each other without looking down.", "Creative", ["Kids", "Teens"]),
    Activity("Invent a secret handshake.", "Indoors", ["Kids", "Teens"]),
    Activity("Have a dance party to one favorite song.", "Active", ["Toddler", "Preschool", "Kids", "Teens"]),
    Activity("Play 'Rock, Paper, Scissors' (best of 5).", "Indoors", ["Preschool", "Kids", "Teens"])
  ]

  /** Entries 11-20 of the fifty bundled ones (lines 35-44). */
  const BundledActivities2: seq<Activity> := [
    Activity("Find 5 different types of leaves outside.", "Outdoors", ["Preschool", "Kids"]),
    Activity("Lie on the grass and watch the clouds float by.", "Outdoors", ["Preschool", "Kids", "Teens"]),
    Activity("Go on a 'listening walk' and name every sound you hear.", "Outdoors", ["Preschool", "Kids"]),
    Activity("Stack pillows as high as they can go without falling.", "Indoors", ["Toddler", "Preschool"]),
    Activity("Try to write your name with your non-dominant hand.", "Creative", ["Kids", "Teens"]),
    Activity("Build a house of cards.", "Mindful/Quiet", ["Kids", "Teens"]),
    Activity("Pretend to be different animals and guess which one.", "Active", ["Toddler", "Preschool"]),
    Activity("Draw a map of your bedroom from memory.", "Creative", ["Kids", "Teens"]),
    Activity("Play the 'Quiet Game' for one minute.", "Mindful/Quiet", ["Preschool", "Kids"]),
    Activity("Find 5 things in the house smaller than your thumb.", "Indoors", ["Toddler", "Preschool", "Kids"])
  ]

  /** Entries 21-30 of the fifty bundled ones (lines 45-54). */
  const BundledActivities3: seq<Activity> := [
    Activity("Play 'Simon Says'.", "Active", ["Preschool", "Kids"]),
    Activity("Make up a silly poem together.", "Creative", ["Preschool", "Kids"]),
    Activity("Practice making funny faces in a mirror.", "Indoors", ["Toddler", "Preschool", "Kids"]),
    Activity("Create a 'band' using pots, pans, and spoons.", "Active", ["Toddler", "Preschool", "Kids"]),
    Activity("Try to pat your head and rub your tummy at the same time.", "Indoors", ["Kids", "Teens"]),
    Activity("Have a staring contest.", "Mindful/Quiet", ["Preschool", "Kids", "Teens"]),
    Activity("Draw a monster, taking turns adding one body part.", "Creative", ["Preschool", "Kids"]),
    Activity("See who can make the best bird call.", "Indoors", ["Preschool", "Kids", "Teens"]),
    Activity("Sing 'Head, Shoulders, Knees, and Toes' as fast as you can.", "Active", ["Toddler", "Preschool"]),
    Activity("Count all the windows in your home.", "Indoors", ["Preschool", "Kids"])
  ]

  /** Entries 31-40 of the fifty bundled ones (lines 55-64). */
  const BundledActivities4: seq<Activity> := [
    Activity("Find a bug outside and give it a name.", "Outdoors", ["Preschool", "Kids"]),
    Activity("Create a museum of 5 interesting household objects.", "Creative", ["Preschool", "Kids"]),
    Activity("Read one short book out loud with funny voices.", "Mindful/Quiet", ["Toddler", "Preschool", "Kids"]),
    Activity("Learn to fold a simple origami animal.", "Creative", ["Kids", "Teens"]),
    Activity("Give a 2-minute 'tour' of the house.", "Indoors", ["Preschool", "Kids"]),
    Activity("Make up a new, silly word and define it.", "Creative", ["Kids", "Teens"]),
    Activity("Do 10 jumping jacks together.", "Active", ["Preschool", "Kids", "Teens"]),
    Activity("Trace your hands on a piece of paper.", "Creative", ["Toddler", "Preschool"]),
    Activity("Whisper a secret and pass it on.", "Mindful/Quiet", ["Preschool", "Kids"]),
    Activity("Make a list of 10 things you're grateful for.", "Mindful/Quiet", ["Kids", "Teens"])
  ]

  /** Entries 41-50 of the fifty bundled ones (lines 65-74). */
  const BundledActivities5: seq<Activity> := [
    Activity("Race two leaves down a stream or puddle.", "Outdoors", ["Preschool", "Kids"]),
    Activity("Draw your favorite animal with chalk on the sidewalk.", "Outdoors", ["Preschool", "Kids", "Teens"]),
    Activity("Try to guess a song by just humming the tune.", "Indoors", ["Kids", "Teens"]),
    Activity("Have a thumb war tournament.", "Active", ["Kids", "Teens"]),
    Activity("See how many rhymes you can make for the word 'cat'.", "Creative", ["Preschool", "Kids"]),
    Activity("Build a 'nest' out of couch cushions.", "Creative", ["Toddler", "Preschool", "Kids"]),
    Activity("Try to touch your toes (or knees, or shins!).", "Active", ["Preschool", "Kids"]),
    Activity("Listen to a song and draw whatever it makes you think of.", "Creative", ["Preschool", "Kids", "Teens"]),
    Activity("Write a secret code message for someone to find.", "Creative", ["Kids", "Teens"]),
    Activity("Find a cool rock, bring it inside, and name it.", "Outdoors", ["Toddler", "Preschool", "Kids"])
  ]

  /** The texts of `ContentData.questions`, in source order. */
  const QuestionTexts: seq<string> := [
    "If you could have any superpower, what would it be and why?",
    "What was the funniest thing that happened today?",
    "If our pet could talk, what would it say?",
    "What's one thing you want to do this weekend?",
    "What new thing did you learn today?",
    "If you could invent a new holiday, what would it celebrate?",
    "What's the best smell in the world?",
    "If you could be any animal for a day, which one would you choose?",
    "What makes you feel really happy?",
    "If you could travel anywhere in the world right now, where would you go?",
    "What's your favorite sound?",
    "If you could have dinner with any cartoon character, who would it be?",
    "What's something you're really good at?",
    "If you could make one rule that everyone in the world had to follow, what would it be?",
    "What's the silliest dream you've ever had?",
    "If you could change your name, what would you change it to?",
    "What's your favorite thing about winter?",
    "If you found a treasure chest, what would you hope is inside?",
    "What's something that always makes you laugh?",
    "If you could design a new playground, what would it have?",
    "What's the kindest thing someone did for you today (or this week)?",
    "If you could talk to trees, what would you ask them?",
    "What's your favorite game to play?",
    "If you could shrink down to the size of an ant, what would you do?",
    "What's something you wish you could do better?",
    "If you could build a robot, what would you want it to do?",
    "What's your favorite memory from when you were little?",
    "If you could give everyone in the world one gift, what would it be?",
    "What's the most interesting thing you saw today?",
    "If you could live in a book or movie, which one would it be?",
    "What are you most looking forward to tomorrow?",
    "If you could fly, where would you go first?",
    "What's something brave you did recently?",
    "If you could have any magical creature as a pet, what would you choose?",
    "What song always makes you want to dance?"
  ]

  /** `ContentData.questions`: every entry built with its own fresh UUID from `ids`. */
  function Questions(ids: seq<Uuid>): (r: seq<Question>)
    requires |ids| == |QuestionTexts|
    ensures |r| == |QuestionTexts|
    ensures forall i :: 0 <= i < |r| ==> r[i].text == QuestionTexts[i] && r[i].id == ids[i]
  {
    MakeQuestions(QuestionTexts, ids)
  }

  lemma CatalogSizes()
    ensures |Activities| == 55
    ensures |QuestionTexts| == 35
  {
  }

  /** Every activity's category is the raw value of one non-"All" Category. */
  lemma ActivityCategoriesAreConcrete(i: nat)
    requires i < |Activities|
    ensures CategoryFromRaw(Activities[i].category).Some?
    ensures CategoryFromRaw(Activities[i].category) != Some(Category.All)
  {
  }

  /** What `Calendar.ordinality(of: .day, in: .year, for:)` can return. */
  type DayOfYear = d: int | 1 <= d <= 366 witness 1

  /** The branch of `getQuestionOfTheDay` where the day of the year is known:
      the day modulo the catalog size picks the entry; an empty catalog gives nil. */
  function DailyQuestion(questions: seq<Question>, day: DayOfYear): (r: Option<Question>)
    ensures r.None? <==> questions == []
    ensures r.Some? ==> r.value in questions
  {
    if questions == [] then None else Some(questions[day % |questions|])
  }

  /** `getQuestionOfTheDay`. `dayOfYear` is None when the calendar cannot
      place today; then the fallback is a random element of the catalog. */
  method GetQuestionOfTheDay(questions: seq<Question>, dayOfYear: Option<DayOfYear>) returns (r: Option<Question>)
    ensures r.None? <==> questions == []
    ensures r.Some? ==> r.value in questions
    ensures dayOfYear.Some? ==> r == DailyQuestion(questions, dayOfYear.value)
  {
    if dayOfYear.None? {
      if questions == [] {
        r := None;
      } else {
        assert questions[0] in questions;
        var q :| q in questions;
        r := Some(q);
      }
      return;
    }
    if questions == [] {
      return None;
    }
    var index := dayOfYear.value % |questions|;
    r := Some(questions[index]);
  }

  /** A catalog of three on day 302 gives the third entry (302 mod 3 = 2). */
  lemma ThreeEntryExample(questions: seq<Question>)
    requires |questions| == 3
    ensures DailyQuestion(questions, 302) == Some(questions[2])
  {
  }

  /** 29 October, day 302, picks index 302 mod 35 = 22 of the shipped catalog. */
  lemma OctoberTwentyNinthExample(ids: seq<Uuid>)
    requires |ids| == |QuestionTexts|
    ensures DailyQuestion(Questions(ids), 302) == Some(Question(ids[22], "What's your favorite game to play?"))
  {
    assert 302 % |QuestionTexts| == 22;
    assert QuestionTexts[22] == "What's your favorite game to play?";
    assert Questions(ids)[22] == Question(ids[22], QuestionTexts[22]);
  }

  /** The same question comes back every |questions| days. */
  lemma {:induction false} DailyQuestionRepeats(questions: seq<Question>, day: DayOfYear)
    requires day + |questions| <= 366
    ensures DailyQuestion(questions, day) == DailyQuestion(questions, (day + |questions|) as DayOfYear)
  {
    if questions != [] {
      var n := |questions|;
      assert day == (day / n) * n + day % n;
      assert (day / n + 1) * n == (day / n) * n + n;
      ModUnique(day + n, n, day / n + 1, day % n);
    }
  }

  /** With two or more questions of distinct ids, consecutive days differ. */
  lemma {:induction false} ConsecutiveDaysDiffer(questions: seq<Question>, day: DayOfYear)
    requires |questions| >= 2 && DistinctQuestionIds(questions)
    requires day < 366
    ensures var today := DailyQuestion(questions, day);
            var tomorrow := DailyQuestion(questions, (day + 1) as DayOfYear);
            today.Some? && tomorrow.Some? && !SameQuestion(today.value, tomorrow.value)
  {
    var n := |questions|;
    var i, j := day % n, (day + 1) % n;
    assert day == (day / n) * n + i;
    if i == n - 1 {
      assert (day / n + 1) * n == (day / n) * n + n;
      ModUnique(day + 1, n, day / n + 1, 0);
    } else {
      ModUnique(day + 1, n, day / n, i + 1);
    }
    assert i != j;
    if i < j {
      assert questions[i].id != questions[j].id;
    } else {
      assert questions[j].id != questions[i].id;
    }
  }

  lemma {:induction false} MulAtLeast(k: int, n: int)
    requires k >= 1 && n > 0
    ensures k * n >= n
  {
    if k > 1 {
      MulAtLeast(k - 1, n);
      assert k * n == (k - 1) * n + n;
    }
  }

  /** Euclidean division is unique: a quotient-remainder split of x fixes x % n. */
  lemma ModUnique(x: int, n: int, q: int, r: int)
    requires n > 0 && 0 <= r < n && x == q * n + r
    ensures x % n == r
  {
    var q', r' := x / n, x % n;
    assert x == q' * n + r';
    assert (q - q') * n == q * n - q' * n;
    assert (q - q') * n == r' - r;
    if q > q' {
      MulAtLeast(q - q', n);
    } else if q < q' {
      MulAtLeast(q' - q, n);
    }
  }
}
