/** The app's record types: Memory, Question and Activity, and the two ordered
    filter enums AgeGroup and Category. */
module Models {
  import opened Wrappers

  /** A UUID; only its equality matters, so it is a natural number here. */
  type Uuid = nat

  /** A point in time (Foundation's Date), in whole seconds. */
  type Instant = int

  newtype Byte = x: int | 0 <= x < 256

  type Bytes = seq<Byte>

  // ---------------------------------------------------------------- Memory

  /** A saved moment. Every field but `isLiked` is a `let` in the source. */
  datatype Memory = Memory(id: Uuid, text: string, date: Instant, imageData: Option<Bytes>, isLiked: bool)

  /** The memberwise initialiser, where `isLiked` takes its default. */
  function NewMemory(id: Uuid, text: string, date: Instant, imageData: Option<Bytes>): (m: Memory)
    ensures !m.isLiked
    ensures m.id == id && m.text == text && m.date == date && m.imageData == imageData
  {
    Memory(id, text, date, imageData, false)
  }

  /** Swift's `==` on Memory: the ids alone decide. */
  predicate SameMemory(a: Memory, b: Memory)
  {
    a.id == b.id
  }

  /** What `hash(into:)` feeds the hasher: the id alone. */
  function MemoryHashInput(m: Memory): Uuid
  {
    m.id
  }

  /** `isLiked.toggle()` on a copy: the one mutation the source performs. */
  function ToggledLike(m: Memory): (r: Memory)
    ensures r.isLiked == !m.isLiked
    ensures r.(isLiked := m.isLiked) == m
  {
    m.(isLiked := !m.isLiked)
  }

  lemma SameMemoryIgnoresContent(a: Memory, b: Memory)
    ensures SameMemory(a, b) <==> a.id == b.id
    ensures SameMemory(a, b) ==> MemoryHashInput(a) == MemoryHashInput(b)
  {
  }

  /** A toggled copy is `==` to the original although its contents differ,
      and toggling twice gives the original back. */
  lemma ToggleTwice(m: Memory)
    ensures SameMemory(ToggledLike(m), m) && ToggledLike(m) != m
    ensures ToggledLike(ToggledLike(m)) == m
  {
  }

  /** Ids unique within a list (the store's intended invariant). */
  predicate DistinctMemoryIds(s: seq<Memory>)
  {
    forall i, j :: 0 <= i < j < |s| ==> s[i].id != s[j].id
  }

  // -------------------------------------------------------------- Question

  /** A conversation prompt; `id` is a fresh UUID per construction. */
  datatype Question = Question(id: Uuid, text: string)

  /** Swift's `==` on Question: the ids alone decide. */
  predicate SameQuestion(a: Question, b: Question)
  {
    a.id == b.id
  }

  function QuestionHashInput(q: Question): Uuid
  {
    q.id
  }

  predicate DistinctQuestionIds(s: seq<Question>)
  {
    forall i, j :: 0 <= i < j < |s| ==> s[i].id != s[j].id
  }

  /** The coded form of a Question: `CodingKeys` has the one case `text`. */
  datatype QuestionCoding = QuestionCoding(text: string)

  function EncodeQuestion(q: Question): QuestionCoding
  {
    QuestionCoding(q.text)
  }

  /** Decoding runs the `id = UUID()` initialiser, so the id is new. */
  function DecodeQuestion(c: QuestionCoding, freshId: Uuid): Question
  {
    Question(freshId, c.text)
  }

  /** A coded question keeps its text but comes back as a different question. */
  lemma DecodedQuestionIsNew(q: Question, freshId: Uuid)
    requires freshId != q.id
    ensures DecodeQuestion(EncodeQuestion(q), freshId).text == q.text
    ensures !SameQuestion(DecodeQuestion(EncodeQuestion(q), freshId), q)
  {
  }

  /** Questions built from texts with one fresh id each. */
  function MakeQuestions(texts: seq<string>, ids: seq<Uuid>): (r: seq<Question>)
    requires |ids| == |texts|
    ensures |r| == |texts|
    ensures forall i :: 0 <= i < |r| ==> r[i] == Question(ids[i], texts[i])
  {
    seq(|texts|, i requires 0 <= i < |texts| => Question(ids[i], texts[i]))
  }

  /** With distinct fresh ids, no two catalog entries are `==`, even two with the same text. */
  lemma MadeQuestionsPairwiseUnequal(texts: seq<string>, ids: seq<Uuid>)
    requires |ids| == |texts|
    requires forall i, j :: 0 <= i < j < |ids| ==> ids[i] != ids[j]
    ensures DistinctQuestionIds(MakeQuestions(texts, ids))
    ensures forall i, j :: 0 <= i < j < |texts| ==> !SameQuestion(MakeQuestions(texts, ids)[i], MakeQuestions(texts, ids)[j])
  {
  }

  // -------------------------------------------------------------- Activity

  datatype Activity = Activity(title: string, category: string, ageGroups: seq<string>)

  datatype AgeGroup = All | Toddler | Preschool | Kids | Teens
  {
    function RawValue(): string
    {
      match this
      case All => "All"
      case Toddler => "Toddler"
      case Preschool => "Preschool"
      case Kids => "Kids"
      case Teens => "Teens"
    }
  }

  datatype Category = All | Indoors | Outdoors | Creative | Active | Quiet
  {
    function RawValue(): string
    {
      match this
      case All => "All"
      case Indoors => "Indoors"
      case Outdoors => "Outdoors"
      case Creative => "Creative"
      case Active => "Active"
      case Quiet => "Mindful/Quiet"
    }
  }

  /** `AgeGroup.allCases`, in declaration order. */
  const AgeGroupCases: seq<AgeGroup> := [AgeGroup.All, Toddler, Preschool, Kids, Teens]

  /** `Category.allCases`, in declaration order. */
  const CategoryCases: seq<Category> := [Category.All, Indoors, Outdoors, Creative, Active, Quiet]

  /** `AgeGroup.allCases.map { $0.rawValue }`: the age picker's titles. */
  function AgeTitles(): (r: seq<string>)
    ensures |r| == |AgeGroupCases|
    ensures forall i :: 0 <= i < |r| ==> r[i] == AgeGroupCases[i].RawValue()
  {
    seq(|AgeGroupCases|, i requires 0 <= i < |AgeGroupCases| => AgeGroupCases[i].RawValue())
  }

  /** `Category.allCases.map { $0.rawValue }`: the category picker's titles. */
  function CategoryTitles(): (r: seq<string>)
    ensures |r| == |CategoryCases|
    ensures forall i :: 0 <= i < |r| ==> r[i] == CategoryCases[i].RawValue()
  {
    seq(|CategoryCases|, i requires 0 <= i < |CategoryCases| => CategoryCases[i].RawValue())
  }

  /** The synthesised `AgeGroup(rawValue:)`. */
  function AgeGroupFromRaw(s: string): Option<AgeGroup>
  {
    if s == "All" then Some(AgeGroup.All)
    else if s == "Toddler" then Some(Toddler)
    else if s == "Preschool" then Some(Preschool)
    else if s == "Kids" then Some(Kids)
    else if s == "Teens" then Some(Teens)
    else None
  }

  /** The synthesised `Category(rawValue:)`. */
  function CategoryFromRaw(s: string): Option<Category>
  {
    if s == "All" then Some(Category.All)
    else if s == "Indoors" then Some(Indoors)
    else if s == "Outdoors" then Some(Outdoors)
    else if s == "Creative" then Some(Creative)
    else if s == "Active" then Some(Active)
    else if s == "Mindful/Quiet" then Some(Quiet)
    else None
  }

  /** The age cases: five of them, "All" first, every case listed once. */
  lemma AgeGroupCasesOrdered(g: AgeGroup)
    ensures |AgeTitles()| == 5
    ensures AgeTitles() == ["All", "Toddler", "Preschool", "Kids", "Teens"]
    ensures g in AgeGroupCases
  {
    match g
    case All => assert AgeGroupCases[0] == g;
    case Toddler => assert AgeGroupCases[1] == g;
    case Preschool => assert AgeGroupCases[2] == g;
    case Kids => assert AgeGroupCases[3] == g;
    case Teens => assert AgeGroupCases[4] == g;
  }

  /** The category cases: six of them, "All" first, every case listed once. */
  lemma CategoryCasesOrdered(c: Category)
    ensures |CategoryTitles()| == 6
    ensures CategoryTitles() == ["All", "Indoors", "Outdoors", "Creative", "Active", "Mindful/Quiet"]
    ensures c in CategoryCases
  {
    match c
    case All => assert CategoryCases[0] == c;
    case Indoors => assert CategoryCases[1] == c;
    case Outdoors => assert CategoryCases[2] == c;
    case Creative => assert CategoryCases[3] == c;
    case Active => assert CategoryCases[4] == c;
    case Quiet => assert CategoryCases[5] == c;
  }

  /** Raw values are pairwise distinct, so a title names exactly one case. */
  lemma AgeGroupRawRoundTrip(g: AgeGroup, s: string)
    ensures AgeGroupFromRaw(g.RawValue()) == Some(g)
    ensures AgeGroupFromRaw(s) == Some(g) ==> g.RawValue() == s
    ensures forall i, j :: 0 <= i < j < |AgeTitles()| ==> AgeTitles()[i] != AgeTitles()[j]
  {
  }

  lemma CategoryRawRoundTrip(c: Category, s: string)
    ensures CategoryFromRaw(c.RawValue()) == Some(c)
    ensures CategoryFromRaw(s) == Some(c) ==> c.RawValue() == s
    ensures forall i, j :: 0 <= i < j < |CategoryTitles()| ==> CategoryTitles()[i] != CategoryTitles()[j]
  {
  }

  /** Index 0 is the only "All" title, which the filters rely on. */
  lemma AllIsIndexZero(ageIndex: nat, categoryIndex: nat)
    requires ageIndex < |AgeTitles()| && categoryIndex < |CategoryTitles()|
    ensures AgeTitles()[ageIndex] == AgeGroup.All.RawValue() <==> ageIndex == 0
    ensures CategoryTitles()[categoryIndex] == Category.All.RawValue() <==> categoryIndex == 0
  {
    AgeGroupCasesOrdered(AgeGroup.All);
    CategoryCasesOrdered(Category.All);
  }
}
