# Pocket of Time — a Dafny model of the app's core

Pocket of Time is an iOS app for parents. It suggests an activity
(filtered by age group and category), shows a conversation question (one
per day of the year, then random ones on swipe), and keeps a private journal
of "moments" (text, date, optional photo, liked flag) in one JSON file.
The model has these parts:

- **Memory, Question, Activity and the AgeGroup/Category enums** (`models.dfy`).
  - Memory and Question equality and hashing look at the id only.
  - A question's coding keeps only its text.
  - The pickers show the enums' titles, with "All" at index 0.
- **The bundled catalog** (`content_data.dfy`).
  - It holds 55 activities and 35 questions.
  - The question of the day is the day of the year mod the catalog size.
- **PersistenceManager** (`persistence.dfy`).
  - It is a class over an abstract file that is missing, unreadable, or holds a list.
  - Its methods are load, save, add-to-front and update-first-with-the-same-id.
  - A failed encode or write is a parameter.
- **The activity screen's filter state** (`activities.dfy`).
  - The two-step filter chain and the random pick.
  - The filter button's icon and tint, and the status pill.
  - Clear and apply filters, and the capture guard.
- **The conversation card** (`conversations.dfy`).
  - The question history with its index, where index -1 is the daily card.
  - The picker that avoids repeats, swipe left and right, and reset.
- **The moments lists** (`moments_list.dfy`, `my_moments.dfy`, `filtered_moments.dfy`).
  - Memories are sorted newest first.
  - The month filter and the "newest plus ten recent" snapshot.
  - Like toggling on both lists.
  - The filtered grid's modes: by month, or by a predicate such as "liked".
- **The memory detail screen** (`memory_detail.dfy`).
  - The title is the first line of the text.
  - The heart icon, like toggling and the share items.
- **The onboarding carousel** (`onboarding.dfy`).
  - Three slides, the before/after neighbours and the page index after a swipe.

Screens are classes that hold only the state their controller keeps:

- Methods change that state under `modifies`.
- Each method is proved against a specification function: the filter chain
  against `Candidates`/`Matches`, the history against `Forward`/`Back`, and
  the file against `AfterAdd`/`AfterUpdate`.
- Lemmas prove properties of those functions.

Some things the app gets from the system become parameters or free choices:

- Dates are whole seconds (`Instant`).
- The user's calendar is a function from instants to year and month.
- The day of the year is `Option<1..366>`.
- `UIImage(data:)` is a predicate on the bytes.
- `UUID()` for a placeholder is a parameter.
- `shuffled()` and `randomElement()` are nondeterministic choices (`:|`).

The catalog entry at `Shared/Data/ContentData.swift:28` lists the age group
"Tweens", which is not a case of `AgeGroup`. The model keeps the entry as
written. `Activities.TweensEntryOnlyMatchesKids` shows that among the age
filters only "All" and "Kids" keep it.

## Model

| member | source | states |
|---|---|---|
| Models.NewMemory | PocketOfTimevvv5/Models/Memory.swift:10-18 | a new memory is not liked and carries the given id, text, date and image |
| Models.ToggledLike | PocketOfTimevvv5/Models/Memory.swift:16-18 | toggling flips `isLiked` and leaves every other field unchanged |
| Models.SameMemoryIgnoresContent | PocketOfTimevvv5/Models/Memory.swift:20-27 | two memories are `==` exactly when their ids match, and equal memories hash alike |
| Models.ToggleTwice | PocketOfTimevvv5/Models/Memory.swift:16-27 | a toggled copy is still `==` to the original but differs from it, and toggling twice restores it |
| Models.DecodedQuestionIsNew | PocketOfTimevvv5/Models/Question.swift:20-36 | decoding keeps the text, gives a fresh id, and so is never `==` to the encoded question |
| Models.SameMemory | PocketOfTimevvv5/Models/Memory.swift:25-27 | `==` on memories compares ids; its meaning is proved in `SameMemoryIgnoresContent` |
| Models.MemoryHashInput | PocketOfTimevvv5/Models/Memory.swift:21-23 | the hasher is fed the id alone; agreement with `==` is proved in `SameMemoryIgnoresContent` |
| Models.SameQuestion | PocketOfTimevvv5/Models/Question.swift:34-36 | `==` on questions compares ids |
| Models.QuestionHashInput | PocketOfTimevvv5/Models/Question.swift:30-32 | the hasher is fed the id alone |
| Models.EncodeQuestion | PocketOfTimevvv5/Models/Question.swift:25-27 | the coding keeps the text only; see `DecodedQuestionIsNew` |
| Models.DecodeQuestion | PocketOfTimevvv5/Models/Question.swift:21-27 | decoding takes the text and a fresh id; see `DecodedQuestionIsNew` |
| Models.MakeQuestions | PocketOfTimevvv5/Models/Question.swift:20-22 | each catalog entry is a question with its own id and the listed text |
| Models.MadeQuestionsPairwiseUnequal | PocketOfTimevvv5/Models/Question.swift:20-36 | questions made with distinct ids are pairwise not `==` |
| Models.AgeTitles | PocketOfTimevvv5/Activities/ActivitiesViewController.swift:21-22 | the age picker titles are the raw values of the age cases, in case order |
| Models.CategoryTitles | PocketOfTimevvv5/Activities/ActivitiesViewController.swift:24-25 | the category picker titles are the raw values of the category cases, in case order |
| Models.AgeGroupCasesOrdered | PocketOfTimevvv5/Models/Activity.swift:19-26 | the age titles are All, Toddler, Preschool, Kids, Teens, and every case is listed |
| Models.CategoryCasesOrdered | PocketOfTimevvv5/Models/Activity.swift:28-36 | the category titles are All, Indoors, Outdoors, Creative, Active, Mindful/Quiet, and every case is listed |
| Models.AgeGroupRawRoundTrip | PocketOfTimevvv5/Models/Activity.swift:19-26 | raw value and `init(rawValue:)` are inverse, and the titles are distinct |
| Models.CategoryRawRoundTrip | PocketOfTimevvv5/Models/Activity.swift:28-36 | raw value and `init(rawValue:)` are inverse, and the titles are distinct |
| Models.AgeGroupFromRaw | PocketOfTimevvv5/Models/Activity.swift:20-26 | `AgeGroup(rawValue:)`; inverse to the raw value by `AgeGroupRawRoundTrip` |
| Models.CategoryFromRaw | PocketOfTimevvv5/Models/Activity.swift:29-36 | `Category(rawValue:)`; inverse to the raw value by `CategoryRawRoundTrip` |
| Models.AllIsIndexZero | PocketOfTimevvv5/Models/Activity.swift:19-36 | a picker title is "All" exactly when its index is 0 |
| ContentData.Questions | PocketOfTimevvv5/Shared/Data/ContentData.swift:79-118 | the question catalog is the 35 listed texts, each with its own id |
| ContentData.CatalogSizes | PocketOfTimevvv5/Shared/Data/ContentData.swift:16-118 | the catalog holds 55 activities and 35 questions |
| ContentData.ActivityCategoriesAreConcrete | PocketOfTimevvv5/Shared/Data/ContentData.swift:16-75 | every activity's category is a category raw value other than "All" |
| ContentData.DailyQuestion | PocketOfTimevvv5/Shared/Data/ContentData.swift:130-134 | there is a daily question exactly when the catalog is not empty, and it is a catalog entry |
| ContentData.GetQuestionOfTheDay | PocketOfTimevvv5/Shared/Data/ContentData.swift:122-135 | with a known day the result is the daily question; without one it is any catalog entry; None only for an empty catalog |
| ContentData.ThreeEntryExample | PocketOfTimevvv5/Shared/Data/ContentData.swift:133-134 | with three questions, day 302 selects the third |
| ContentData.OctoberTwentyNinthExample | PocketOfTimevvv5/Shared/Data/ContentData.swift:105 | on day 302 the bundled catalog shows "What's your favorite game to play?" (entry 22) |
| ContentData.DailyQuestionRepeats | PocketOfTimevvv5/Shared/Data/ContentData.swift:133-134 | the daily question repeats every catalog-size days |
| ContentData.ConsecutiveDaysDiffer | PocketOfTimevvv5/Shared/Data/ContentData.swift:133-134 | with two or more distinct questions, consecutive days show different questions |
| Persistence.FirstIndexWithId | PocketOfTimevvv5/Shared/Managers/PersistenceManager.swift:82 | the result is the first index whose id matches, or None exactly when no id matches |
| Persistence.Loaded | PocketOfTimevvv5/Shared/Managers/PersistenceManager.swift:30-47 | what a load returns for each file state; used by `LoadMemories` and `UnreadableLoadsEmpty` |
| Persistence.ReplaceFirstById | PocketOfTimevvv5/Shared/Managers/PersistenceManager.swift:82-84 | the list with its first entry of the id replaced; its meaning is proved in `ReplaceFirstByIdSpec` |
| Persistence.AfterSave | PocketOfTimevvv5/Shared/Managers/PersistenceManager.swift:50-63 | the file after a save, which fails atomically; `SaveMemories` meets it and `SaveThenLoad` reads it back |
| Persistence.AfterAdd | PocketOfTimevvv5/Shared/Managers/PersistenceManager.swift:66-73 | the file after an add; `AddMemory` meets it and `AddPrepends` states its contents |
| Persistence.AfterUpdate | PocketOfTimevvv5/Shared/Managers/PersistenceManager.swift:77-89 | the file after an update; `UpdateMemory` meets it and `UpdateReplacesOnlyMatch` states its contents |
| Persistence.PersistenceManager.constructor | PocketOfTimevvv5/Shared/Managers/PersistenceManager.swift:16-27 | the store starts over the given file state |
| Persistence.PersistenceManager.LoadMemories | PocketOfTimevvv5/Shared/Managers/PersistenceManager.swift:30-47 | loading returns the stored list, and an empty list for a missing or undecodable file |
| Persistence.PersistenceManager.SaveMemories | PocketOfTimevvv5/Shared/Managers/PersistenceManager.swift:50-63 | a successful save replaces the file with the list; a failed one leaves it alone |
| Persistence.PersistenceManager.AddMemory | PocketOfTimevvv5/Shared/Managers/PersistenceManager.swift:66-73 | adding saves the loaded list with the memory in front |
| Persistence.PersistenceManager.UpdateMemory | PocketOfTimevvv5/Shared/Managers/PersistenceManager.swift:77-89 | updating replaces the first entry with the same id and saves; with no match nothing is written |
| Persistence.SaveThenLoad | PocketOfTimevvv5/Shared/Managers/PersistenceManager.swift:30-63 | after a successful save, load returns exactly what was saved |
| Persistence.UnreadableLoadsEmpty | PocketOfTimevvv5/Shared/Managers/PersistenceManager.swift:32-46 | a missing or corrupt file loads as the empty list |
| Persistence.AddPrepends | PocketOfTimevvv5/Shared/Managers/PersistenceManager.swift:66-73 | after an add, load returns the new memory followed by the old list |
| Persistence.AddOverwritesUnreadable | PocketOfTimevvv5/Shared/Managers/PersistenceManager.swift:66-73 | adding to an unreadable file replaces it with a one-memory list |
| Persistence.AddsLoadNewestFirst | PocketOfTimevvv5/Shared/Managers/PersistenceManager.swift:66-73 | after several adds the file lists them newest first, ahead of the old entries |
| Persistence.ReplaceFirstByIdSpec | PocketOfTimevvv5/Shared/Managers/PersistenceManager.swift:82-84 | replacement puts the update at the first matching index and keeps every other entry |
| Persistence.UpdateReplacesOnlyMatch | PocketOfTimevvv5/Shared/Managers/PersistenceManager.swift:77-89 | a successful update changes only the first entry with that id, and the length is unchanged |
| Persistence.UpdateWithoutMatchIsNoOp | PocketOfTimevvv5/Shared/Managers/PersistenceManager.swift:82-88 | updating an id that is not stored leaves the file as it was |
| Persistence.FirstIndexAfterReplace | PocketOfTimevvv5/Shared/Managers/PersistenceManager.swift:82-84 | replacement does not move the first index of that id |
| Persistence.UpdateIdempotent | PocketOfTimevvv5/Shared/Managers/PersistenceManager.swift:77-89 | updating twice with the same memory equals updating once |
| Persistence.UpdateWithStoredEntryIsNoChange | PocketOfTimevvv5/Shared/Managers/PersistenceManager.swift:77-89 | writing back the first entry of an id unchanged leaves the file as it was |
| Activities.Candidates | PocketOfTimevvv5/Activities/ActivitiesViewController.swift:683-694 | the two-step filter chain; `CandidatesAreMatches` states what it keeps |
| Activities.IsFilterActive | PocketOfTimevvv5/Activities/ActivitiesViewController.swift:633 | a filter is active when either index is not 0 |
| Activities.FilterParts | PocketOfTimevvv5/Activities/ActivitiesViewController.swift:873-885 | the non-"All" titles, age first; `StatusAgreesWithFilterButton` states when it is empty |
| Activities.StatusText | PocketOfTimevvv5/Activities/ActivitiesViewController.swift:888-896 | the pill text, None when hidden; `StatusAgreesWithFilterButton` relates it to the button |
| Activities.CandidatesAreMatches | PocketOfTimevvv5/Activities/ActivitiesViewController.swift:683-694 | the chained filters keep exactly the activities matching both selections, in catalog order |
| Activities.AllFiltersOffKeepsCatalog | PocketOfTimevvv5/Activities/ActivitiesViewController.swift:686-694 | with both pickers on "All" every activity is a candidate |
| Activities.TweensEntryOnlyMatchesKids | PocketOfTimevvv5/Shared/Data/ContentData.swift:28 | the "Tweens" entry is kept by the age filters "All" and "Kids" only |
| Activities.FilterIconName | PocketOfTimevvv5/Activities/ActivitiesViewController.swift:632-634 | the filled icon shows exactly when an index is not 0 |
| Activities.FilterTint | PocketOfTimevvv5/Activities/ActivitiesViewController.swift:633-640 | the button is yellow exactly when a filter is active |
| Activities.StatusAgreesWithFilterButton | PocketOfTimevvv5/Activities/ActivitiesViewController.swift:873-898 | the pill is hidden exactly when no filter is active, and otherwise names the age title, then the category title, joined by ", " |
| Activities.StatusExample | PocketOfTimevvv5/Activities/ActivitiesViewController.swift:873-898 | Kids with Creative reads "Filtering: Kids, Creative" |
| Activities.ActivitiesScreen.constructor | PocketOfTimevvv5/Activities/ActivitiesViewController.swift:368-379 | the screen starts with both filters on "All", the plain white icon, the pill hidden with no text, an empty card and the camera hidden |
| Activities.ActivitiesScreen.UpdateFilterButtonAppearance | PocketOfTimevvv5/Activities/ActivitiesViewController.swift:632-641 | the icon and tint follow the filter-active flag, and nothing else changes |
| Activities.ActivitiesScreen.UpdateFilterStatusLabel | PocketOfTimevvv5/Activities/ActivitiesViewController.swift:873-898 | the pill shows the status text when a filter is active; a hidden pill keeps its old text |
| Activities.ActivitiesScreen.ClearFilters | PocketOfTimevvv5/Activities/ActivitiesViewController.swift:621-629 | both indices return to 0, the icon is plain and white, the pill is hidden and keeps its old text; the activity, card and camera are unchanged |
| Activities.ActivitiesScreen.ApplyFilters | PocketOfTimevvv5/Activities/ActivitiesViewController.swift:974-979 | the chosen rows are stored; the icon and tint follow them; the pill shows their status text when a filter is active and is hidden with its old text otherwise; the activity, card and camera are unchanged |
| Activities.ActivitiesScreen.GetActivity | PocketOfTimevvv5/Activities/ActivitiesViewController.swift:672-704 | the pick is some candidate and the card shows its title; with no candidate there is no activity and the card shows the reset hint; the camera is hidden exactly when there is no activity |
| Activities.ActivitiesScreen.ResetView | PocketOfTimevvv5/Activities/ActivitiesViewController.swift:851-862 | reset hides the camera but keeps the current activity, the card text, the filter button and the pill |
| Activities.ActivitiesScreen.CaptureMoment | PocketOfTimevvv5/Activities/ActivitiesViewController.swift:724-735 | capture opens with the current activity's title, and does nothing without one |
| Conversations.DailyCardText | PocketOfTimevvv5/Conversations/ConversationsViewController.swift:501 | the card shows the daily question's text, or the fallback line when there is none |
| Conversations.Displayed | PocketOfTimevvv5/Conversations/ConversationsViewController.swift:318-350 | the question on the card for a history position, none on the daily card |
| Conversations.Forward | PocketOfTimevvv5/Conversations/ConversationsViewController.swift:318-341 | a left swipe steps forward inside the history, or at its end appends the picked question; the history only grows at its end |
| Conversations.Back | PocketOfTimevvv5/Conversations/ConversationsViewController.swift:344-350 | a right swipe steps back one entry, but never from the first entry or the daily card |
| Conversations.ForwardUndoesBack | PocketOfTimevvv5/Conversations/ConversationsViewController.swift:309-350 | back then forward returns to the same card without a new pick |
| Conversations.BackUndoesForward | PocketOfTimevvv5/Conversations/ConversationsViewController.swift:309-350 | forward then back returns to the same index when the forward step moved |
| Conversations.BackStopsAtFirstEntry | PocketOfTimevvv5/Conversations/ConversationsViewController.swift:344-346 | a right swipe on the daily card or the first entry changes nothing |
| Conversations.Last | PocketOfTimevvv5/Conversations/ConversationsViewController.swift:320 | `last` is None exactly for an empty history, else the final entry |
| Conversations.DistinctIdsOccurOnce | PocketOfTimevvv5/Models/Question.swift:21 | in a catalog with distinct ids no question occurs twice |
| Conversations.ShuffleHeadsDiffer | PocketOfTimevvv5/Conversations/ConversationsViewController.swift:302-305 | the first two entries of any shuffle of a catalog with distinct ids are not `==` |
| Conversations.ConversationsScreen.constructor | PocketOfTimevvv5/Conversations/ConversationsViewController.swift:25-32 | the screen starts on the daily card with an empty history and the hint not dismissed |
| Conversations.ConversationsScreen.NextRandomQuestionAvoidingRepeat | PocketOfTimevvv5/Conversations/ConversationsViewController.swift:302-306 | the pick is a catalog entry, None only for an empty catalog, forced with one question, and never `==` to the last one when the catalog has two or more distinct questions |
| Conversations.ConversationsScreen.SwipeLeft | PocketOfTimevvv5/Conversations/ConversationsViewController.swift:309-342 | the history moves by `Forward`: inside the history the index advances over an unchanged history; at its end one catalog question is appended after the unchanged entries, never `==` to the one before it when the catalog allows; the card shows the current entry, the hint counts as dismissed, and history entries stay in the catalog with no immediate repeats |
| Conversations.ConversationsScreen.SwipeRight | PocketOfTimevvv5/Conversations/ConversationsViewController.swift:344-350 | the history moves by `Back`, and the card shows the entry stepped back to |
| Conversations.ConversationsScreen.ResetView | PocketOfTimevvv5/Conversations/ConversationsViewController.swift:493-511 | reset clears the history and returns to the daily card; on a known day it shows the daily question, on an unknown day some catalog question, and the fallback line for an empty catalog |
| MomentsList.SortNewestFirst | PocketOfTimevvv5/Moments/MyMomentsViewController.swift:279-283 | the result is sorted by date, newest first, and is a permutation of the input |
| MomentsList.InMonth | PocketOfTimevvv5/Moments/MyMomentsViewController.swift:286-289 | the result is the order-preserving sublist of the memories in the same calendar month, with every such memory as often as in the input and no other, and keeps newest-first order |
| MomentsList.FilterKeepsNewestFirst | PocketOfTimevvv5/Moments/FilteredMomentsViewController.swift:88-99 | any filter of a newest-first list is newest first |
| MomentsList.SectionTitle | PocketOfTimevvv5/Moments/MyMomentsViewController.swift:13-24 | only the empty section has an empty title |
| MomentsList.SnapshotOf | PocketOfTimevvv5/Moments/MyMomentsViewController.swift:292-314 | the sections and items of a list; `SnapshotShowsNewestEleven` states what it shows |
| MomentsList.SnapshotShowsNewestEleven | PocketOfTimevvv5/Moments/MyMomentsViewController.swift:292-314 | an empty list shows one placeholder; otherwise the first memory is on top, at most ten follow, and the list's first eleven are shown in order |
| MyMoments.LoadedNewestFirst | PocketOfTimevvv5/Moments/MyMomentsViewController.swift:279-283 | the loaded list is newest first and holds exactly the stored memories |
| MyMoments.ToggleLikeFlipsOnlyThatEntry | PocketOfTimevvv5/Moments/MyMomentsViewController.swift:346-356 | toggling a listed memory flips its liked flag and changes no other entry |
| MyMoments.MyMomentsScreen.constructor | PocketOfTimevvv5/Moments/MyMomentsViewController.swift:34-35 | the screen starts with no memories and no month filter |
| MyMoments.MyMomentsScreen.FilteredMemories | PocketOfTimevvv5/Moments/MyMomentsViewController.swift:286-289 | with no month it is the whole list; with a month it is the order-preserving sublist of the memories in that month, each as often as in the list |
| MyMoments.MyMomentsScreen.UpdateSnapshot | PocketOfTimevvv5/Moments/MyMomentsViewController.swift:292-314 | the snapshot is built from the filtered list |
| MyMoments.MyMomentsScreen.LoadData | PocketOfTimevvv5/Moments/MyMomentsViewController.swift:279-284 | the list becomes the stored memories newest first, and the snapshot follows |
| MyMoments.MyMomentsScreen.ToggleLike | PocketOfTimevvv5/Moments/MyMomentsViewController.swift:346-356 | the flipped copy is written through `UpdateMemory` and patched into the first list entry with its id |
| MyMoments.MyMomentsScreen.DidTapShowAll | PocketOfTimevvv5/Moments/MyMomentsViewController.swift:339-343 | the month is dropped, the list is reloaded, the snapshot is built from the whole list (one placeholder when it is empty), and the newest eleven are shown |
| MyMoments.MyMomentsScreen.DidSelectDate | PocketOfTimevvv5/Moments/MyMomentsViewController.swift:374-379 | the month is set, the list is reloaded, and only stored memories of that month are shown, newest first |
| FilteredMoments.NavTitle | PocketOfTimevvv5/Moments/FilteredMomentsViewController.swift:17-26 | a predicate grid is titled with its title, and a month grid with the formatted month |
| FilteredMoments.Keeps | PocketOfTimevvv5/Moments/FilteredMomentsViewController.swift:93-97 | the filter a mode applies: same month, or the given predicate |
| FilteredMoments.View | PocketOfTimevvv5/Moments/FilteredMomentsViewController.swift:88-97 | the loaded memories newest first, filtered by the mode; `ViewIsExactAndNewestFirst` states its contents |
| FilteredMoments.ViewIsExactAndNewestFirst | PocketOfTimevvv5/Moments/FilteredMomentsViewController.swift:88-99 | the grid shows exactly the stored memories the mode keeps, newest first |
| FilteredMoments.MonthViewMatchesMainList | PocketOfTimevvv5/Moments/FilteredMomentsViewController.swift:94-95 | a month grid lists what the main list shows for that month, in the same order |
| FilteredMoments.UnlikedInFile | PocketOfTimevvv5/Moments/FilteredMomentsViewController.swift:137-140 | after a successful toggle, every stored memory with that id has the opposite liked flag (ids distinct) |
| FilteredMoments.UnlikingLeavesLikedView | PocketOfTimevvv5/Moments/MyMomentsViewController.swift:359-361 | in the "Liked Moments" grid, a liked memory is shown, and after unliking it the reloaded grid no longer holds its id |
| FilteredMoments.FilteredMomentsScreen.constructor | PocketOfTimevvv5/Moments/FilteredMomentsViewController.swift:40-49 | the grid keeps its mode and starts empty |
| FilteredMoments.FilteredMomentsScreen.LoadAndFilterData | PocketOfTimevvv5/Moments/FilteredMomentsViewController.swift:88-99 | the grid becomes the mode's view of the stored memories |
| FilteredMoments.FilteredMomentsScreen.ToggleLike | PocketOfTimevvv5/Moments/FilteredMomentsViewController.swift:137-147 | the flipped copy is written through `UpdateMemory`, then the grid is refiltered from the file |
| MemoryDetail.IsNewline | PocketOfTimevvv5/Moments/MemoryDetailViewController.swift:146 | the characters of `CharacterSet.newlines` |
| MemoryDetail.FirstLine | PocketOfTimevvv5/Moments/MemoryDetailViewController.swift:145-146 | the title is a newline-free prefix of the text, ending at the text's end or a newline |
| MemoryDetail.OneLinerTitleIsText | PocketOfTimevvv5/Moments/MemoryDetailViewController.swift:145-153 | for a text without a newline the title equals the body |
| MemoryDetail.FirstLineIdempotent | PocketOfTimevvv5/Moments/MemoryDetailViewController.swift:146 | the title of a title is itself |
| MemoryDetail.FirstLineStopsAtNewline | PocketOfTimevvv5/Moments/MemoryDetailViewController.swift:146 | whatever follows the first newline does not affect the title |
| MemoryDetail.HeartIconName | PocketOfTimevvv5/Moments/MemoryDetailViewController.swift:89-96 | the filled heart shows exactly for a liked memory |
| MemoryDetail.HeartTint | PocketOfTimevvv5/Moments/MemoryDetailViewController.swift:89-94 | the heart is pink exactly for a liked memory, else the label colour |
| MemoryDetail.ToggleTwiceRestoresFile | PocketOfTimevvv5/Moments/MemoryDetailViewController.swift:158-164 | liking and unliking from the detail screen leaves the file as it was |
| MemoryDetail.MemoryDetailScreen.constructor | PocketOfTimevvv5/Moments/MemoryDetailViewController.swift:52-67 | opening shows the first line as the title, the full text as the body, the memory's heart icon and tint, and the image at height 240 only when it decodes (else hidden at 0) |
| MemoryDetail.MemoryDetailScreen.RefreshHeartIcon | PocketOfTimevvv5/Moments/MemoryDetailViewController.swift:89-96 | the heart icon and tint follow the liked flag, and nothing else changes |
| MemoryDetail.MemoryDetailScreen.Apply | PocketOfTimevvv5/Moments/MemoryDetailViewController.swift:134-155 | the image is shown at height 240 only when it decodes (else hidden at 0), the title is the first line, the body the full text, and the heart icon and tint follow the shown memory |
| MemoryDetail.MemoryDetailScreen.ToggleLike | PocketOfTimevvv5/Moments/MemoryDetailViewController.swift:158-164 | the shown memory's flag flips, the flipped memory is written through `UpdateMemory`, the heart icon and tint follow, and the title, body and image are unchanged |
| MemoryDetail.MemoryDetailScreen.ShareItems | PocketOfTimevvv5/Moments/MemoryDetailViewController.swift:166-173 | the text is shared first, followed by the image exactly when it decodes |
| Onboarding.ContentViewController | PocketOfTimevvv5/Onboarding/OnboardingViewController.swift:114-122 | a page exists exactly for an index in range, and it shows that slide with that index |
| Onboarding.Before | PocketOfTimevvv5/Onboarding/OnboardingViewController.swift:140-145 | the page at index - 1; `NeighboursAreInverse` states its bounds |
| Onboarding.After | PocketOfTimevvv5/Onboarding/OnboardingViewController.swift:147-152 | the page at index + 1; `NeighboursAreInverse` states its bounds |
| Onboarding.NeighboursAreInverse | PocketOfTimevvv5/Onboarding/OnboardingViewController.swift:140-152 | before and after are inverse; there is nothing before the first page or after the last |
| Onboarding.ThreePages | PocketOfTimevvv5/Onboarding/OnboardingViewController.swift:34-46 | there are three slides, reached from page 0 by `after`, and nothing after the third |
| Onboarding.OnboardingPager.constructor | PocketOfTimevvv5/Onboarding/OnboardingViewController.swift:22-30 | the carousel opens on the first slide with three dots, the first one current |
| Onboarding.OnboardingPager.DidFinishAnimating | PocketOfTimevvv5/Onboarding/OnboardingViewController.swift:156-163 | a completed transition leaves the new page on screen and sets the index and the current dot to its index; otherwise the page, index and dot are unchanged |

## Left out

- Views, layout, animations, timers, the ripple and intro effects, and the
  spotlight card are not modelled. The activity card's text is modelled only
  as `ideaText`. The question card's pre-ripple "Question Of The Day" title is
  not modelled.
- JSON encoding and decoding is not modelled. A list that does not decode is
  the `Corrupt` file state. The ISO-8601 date strategy drops sub-second
  precision, so dates are whole seconds and that loss is not modelled.
- The file system is not modelled. A failed encode or atomic write is the
  `writeOk` parameter, and the error messages the app logs are not modelled.
- The "Captured Moment" title fallback is not modelled, because
  `components(separatedBy:)` always returns at least one component.
- Calendar and time zone lookups are parameters: the calendar maps an
  instant to its year and month. `ordinality(of:in:for:)` is the optional
  day of the year.
- The "MMMM yyyy" month formatter and the date label's medium style are not
  modelled. The formatter is a parameter of `FilteredMoments.NavTitle`.
- `shuffled()`, `randomElement()` and `UUID()` are nondeterministic choices
  or parameters, not a particular generator.
- `UserDefaults` (the onboarding-completed flag) and the scene switch after
  "Get Started" are not modelled. They are external state.
- The `as? OnboardingContentViewController` casts are not modelled, because
  every page is an onboarding content page.
- The add-memory, calendar and filter sheets are not modelled. Only what they
  return is: the saved memory through `AddMemory`, the picked date through
  `DidSelectDate`, and the picker rows through `ApplyFilters`.
- MomentsList.SortNewestFirst: it fixes one order for memories with the same
  date (the earlier entry first). Swift's `sorted(by:)` promises no
  particular order among them.
- Activities.ActivitiesScreen.ApplyFilters: it requires the indices to be in
  range. The filter sheet always passes picker rows, and the app would trap
  on a bad index when it subscripts the title arrays.
- Conversations.ConversationsScreen.ResetView: the label change and the
  history clear are one step here. The app clears the history in the
  animation's completion handler.
- Conversations.ConversationsScreen.ResetView reads the screen's catalog
  `allQuestions`, while the app calls `ContentData.getQuestionOfTheDay()` on
  the static catalog. `loadContent` copies that catalog into `allQuestions`
  (ConversationsViewController.swift:297-299), so in the app both are the
  same array.
- Onboarding.OnboardingPager.DidFinishAnimating: the swipe itself is the
  page view controller's. The page it lands on is the `first` parameter.
