/** The single-memory screen: title from the first line, heart toggle, share sheet. */
module MemoryDetail {
  import opened Wrappers
  import opened Models
  import opened Persistence

  /** Membership in Foundation's `CharacterSet.newlines`. */
  predicate IsNewline(c: char)
  {
    c == '\U{000A}' || c == '\U{000B}' || c == '\U{000C}' || c == '\U{000D}'
    || c == '\U{0085}' || c == '\U{2028}' || c == '\U{2029}'
  }

  /** `components(separatedBy: .newlines).first`: the text up to the first
      newline character (all of it when there is none). */
  function FirstLine(text: string): (r: string)
    ensures |r| <= |text| && r == text[..|r|]
    ensures forall k :: 0 <= k < |r| ==> !IsNewline(r[k])
    ensures |r| == |text| || IsNewline(text[|r|])
  {
    if text == [] || IsNewline(text[0]) then []
    else [text[0]] + FirstLine(text[1..])
  }

  /** The title of a one-line memory is its whole text. */
  lemma {:induction false} OneLinerTitleIsText(text: string)
    requires forall k :: 0 <= k < |text| ==> !IsNewline(text[k])
    ensures FirstLine(text) == text
  {
    if text != [] {
      OneLinerTitleIsText(text[1..]);
    }
  }

  /** Taking the first line twice changes nothing. */
  lemma FirstLineIdempotent(text: string)
    ensures FirstLine(FirstLine(text)) == FirstLine(text)
  {
    OneLinerTitleIsText(FirstLine(text));
  }

  /** The first line stops at the first newline, whatever follows it. */
  lemma FirstLineStopsAtNewline(line: string, c: char, rest: string)
    requires forall k :: 0 <= k < |line| ==> !IsNewline(line[k])
    requires IsNewline(c)
    ensures FirstLine(line + [c] + rest) == line
  {
    var text := line + [c] + rest;
    assert text[|line|] == c;
    assert forall k :: 0 <= k < |line| ==> text[k] == line[k];
  }

  function HeartIconName(isLiked: bool): (r: string)
    ensures isLiked <==> r == "heart.fill"
  {
    if isLiked then "heart.fill" else "heart"
  }

  datatype Tint = SystemPink | Label

  /** The heart button's tint: pink exactly when the memory is liked. */
  function HeartTint(isLiked: bool): (r: Tint)
    ensures isLiked <==> r == SystemPink
  {
    if isLiked then SystemPink else Label
  }

  datatype ShareItem = SharedText(text: string) | SharedImage(data: Bytes)

  /** Liking twice in the detail screen leaves a readable file as it was,
      when the memory shown is the file's first entry with its id. */
  lemma ToggleTwiceRestoresFile(s: seq<Memory>, i: nat)
    requires i < |s| && forall j :: 0 <= j < i ==> s[j].id != s[i].id
    ensures AfterUpdate(AfterUpdate(Stored(s), ToggledLike(s[i]), true), ToggledLike(ToggledLike(s[i])), true) == Stored(s)
  {
    var once := ToggledLike(s[i]);
    ReplaceFirstByIdSpec(s, once, i);
    var s1 := ReplaceFirstById(s, once);
    assert AfterUpdate(Stored(s), once, true) == Stored(s1);
    ToggleTwice(s[i]);
    assert forall j :: 0 <= j < i ==> s1[j].id != s[i].id;
    UpdateWithStoredEntryIsNoChange(s, i);
    ReplaceFirstByIdSpec(s1, s[i], i);
    assert ReplaceFirstById(s1, s[i]) == s;
  }

  /** The part of MemoryDetailViewController that holds the shown memory. */
  class MemoryDetailScreen {
    const store: PersistenceManager
    /** Whether `UIImage(data:)` can decode the given bytes. */
    const decodes: Bytes -> bool
    var memory: Memory
    var titleText: string
    var bodyText: string
    var imageHidden: bool
    var imageHeight: int
    var heartIcon: string
    var heartTint: Tint

    /** `init(memory:)` followed by `viewDidLoad`. */
    constructor (memory: Memory, store: PersistenceManager, decodes: Bytes -> bool)
      ensures this.memory == memory && this.store == store && this.decodes == decodes
      ensures titleText == FirstLine(memory.text) && bodyText == memory.text
      ensures heartIcon == HeartIconName(memory.isLiked) && heartTint == HeartTint(memory.isLiked)
      ensures imageHidden <==> memory.imageData.None? || !decodes(memory.imageData.value)
      ensures imageHeight == (if imageHidden then 0 else 240)
    {
      this.memory := memory;
      this.store := store;
      this.decodes := decodes;
      titleText := "";
      bodyText := "";
      imageHidden := true;
      imageHeight := 240;
      heartIcon := "";
      heartTint := Label;
      new;
      Apply(memory);
    }

    method RefreshHeartIcon()
      modifies this
      ensures heartIcon == HeartIconName(memory.isLiked)
      ensures heartTint == HeartTint(memory.isLiked)
      ensures memory == old(memory) && titleText == old(titleText) && bodyText == old(bodyText)
      ensures imageHidden == old(imageHidden) && imageHeight == old(imageHeight)
    {
      heartIcon := if memory.isLiked then "heart.fill" else "heart";
      heartTint := if memory.isLiked then SystemPink else Label;
    }

    /** `apply`: image shown at height 240 only when it decodes, title the
        first line, body the full text. */
    method Apply(m: Memory)
      modifies this
      ensures imageHidden <==> m.imageData.None? || !decodes(m.imageData.value)
      ensures imageHeight == (if imageHidden then 0 else 240)
      ensures titleText == FirstLine(m.text) && bodyText == m.text
      ensures heartIcon == HeartIconName(memory.isLiked) && heartTint == HeartTint(memory.isLiked)
      ensures memory == old(memory)
    {
      if m.imageData.Some? && decodes(m.imageData.value) {
        imageHidden := false;
        imageHeight := 240;
      } else {
        imageHidden := true;
        imageHeight := 0;
      }
      titleText := FirstLine(m.text);
      bodyText := m.text;
      RefreshHeartIcon();
    }

    /** `toggleLike`: flip the shown memory, persist it, refresh the heart. */
    method ToggleLike(writeOk: bool)
      modifies this, store
      ensures memory == ToggledLike(old(memory))
      ensures store.file == AfterUpdate(old(store.file), memory, writeOk)
      ensures heartIcon == HeartIconName(memory.isLiked) && heartTint == HeartTint(memory.isLiked)
      ensures titleText == old(titleText) && bodyText == old(bodyText)
      ensures imageHidden == old(imageHidden) && imageHeight == old(imageHeight)
    {
      memory := memory.(isLiked := !memory.isLiked);
      store.UpdateMemory(memory, writeOk);
      RefreshHeartIcon();
    }

    /** `shareTapped`: the text, then the image when it decodes. */
    method ShareItems() returns (items: seq<ShareItem>)
      ensures |items| >= 1 && items[0] == SharedText(memory.text)
      ensures |items| == 2 <==> memory.imageData.Some? && decodes(memory.imageData.value)
      ensures |items| == 2 ==> items[1] == SharedImage(memory.imageData.value)
      ensures |items| <= 2
    {
      items := [SharedText(memory.text)];
      if memory.imageData.Some? && decodes(memory.imageData.value) {
        items := items + [SharedImage(memory.imageData.value)];
      }
    }
  }
}
