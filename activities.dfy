/** The activity screen's filter state: two picker indices, the chain of
    filters they select, the random pick, and the filter button and status pill. */
module Activities {
  import opened Wrappers
  import opened Models
  import opened Seqs
  import ContentData

  const NoActivitiesMessage: string := "No activities found for this combination. Try resetting your filters!"

  predicate ValidIndices(ageIndex: nat, categoryIndex: nat)
  {
    ageIndex < |AgeTitles()| && categoryIndex < |CategoryTitles()|
  }

  /** The filter chain in `didTapGetActivityButton`: by age unless the age
      title is "All", then by category unless the category title is "All". */
  function Candidates(all: seq<Activity>, ageIndex: nat, categoryIndex: nat): seq<Activity>
    requires ValidIndices(ageIndex, categoryIndex)
  {
    var ageTitle := AgeTitles()[ageIndex];
    var categoryTitle := CategoryTitles()[categoryIndex];
    var byAge := if ageTitle != AgeGroup.All.RawValue() then Filter(all, (a: Activity) => ageTitle in a.ageGroups) else all;
    if categoryTitle != Category.All.RawValue() then Filter(byAge, (a: Activity) => a.category == categoryTitle) else byAge
  }

  /** Reference definition of a match: index 0 accepts anything, any other
      index requires the selected title. */
  predicate Matches(a: Activity, ageIndex: nat, categoryIndex: nat)
    requires ValidIndices(ageIndex, categoryIndex)
  {
    && (ageIndex == 0 || AgeTitles()[ageIndex] in a.ageGroups)
    && (categoryIndex == 0 || a.category == CategoryTitles()[categoryIndex])
  }

  /** The candidates are exactly the matching activities, in catalog order. */
  lemma CandidatesAreMatches(all: seq<Activity>, ageIndex: nat, categoryIndex: nat)
    requires ValidIndices(ageIndex, categoryIndex)
    ensures Candidates(all, ageIndex, categoryIndex) == Filter(all, (a: Activity) => Matches(a, ageIndex, categoryIndex))
    ensures IsSubsequence(Candidates(all, ageIndex, categoryIndex), all)
    ensures forall a :: a in Candidates(all, ageIndex, categoryIndex) <==> a in all && Matches(a, ageIndex, categoryIndex)
  {
    AllIsIndexZero(ageIndex, categoryIndex);
    var ageTitle := AgeTitles()[ageIndex];
    var categoryTitle := CategoryTitles()[categoryIndex];
    var byAge: Activity -> bool := (a: Activity) => ageTitle in a.ageGroups;
    var byCategory: Activity -> bool := (a: Activity) => a.category == categoryTitle;
    var matches: Activity -> bool := (a: Activity) => Matches(a, ageIndex, categoryIndex);
    if ageIndex == 0 && categoryIndex == 0 {
      FilterAll(all, matches);
    } else if categoryIndex == 0 {
      FilterSamePredicate(all, byAge, matches);
    } else if ageIndex == 0 {
      FilterSamePredicate(all, byCategory, matches);
    } else {
      FilterFusion(all, byAge, byCategory, matches);
    }
    FilterIsSubsequence(all, matches);
  }

  /** With both filters on "All" the candidates are the whole catalog, in order. */
  lemma AllFiltersOffKeepsCatalog(all: seq<Activity>)
    ensures ValidIndices(0, 0) && Candidates(all, 0, 0) == all
  {
    AllIsIndexZero(0, 0);
  }

  /** The catalog entry at line 28 lists "Tweens", which no age title names:
      of the age filters only "All" and "Kids" keep it. */
  lemma TweensEntryOnlyMatchesKids(ageIndex: nat)
    requires ageIndex < |AgeTitles()|
    ensures "Tweens" !in AgeTitles()
    ensures ContentData.Activities[8].ageGroups == ["Kids", "Tweens"]
    ensures Matches(ContentData.Activities[8], ageIndex, 0) <==> ageIndex == 0 || ageIndex == 3
  {
    AgeGroupCasesOrdered(AgeGroup.All);
  }

  /** `isFilterActive` in `updateFilterButtonAppearance`. */
  predicate IsFilterActive(ageIndex: nat, categoryIndex: nat)
  {
    ageIndex != 0 || categoryIndex != 0
  }

  function FilterIconName(ageIndex: nat, categoryIndex: nat): (r: string)
    ensures r == "slider.horizontal.3.fill" <==> IsFilterActive(ageIndex, categoryIndex)
  {
    if IsFilterActive(ageIndex, categoryIndex) then "slider.horizontal.3.fill" else "slider.horizontal.3"
  }

  /** `filterParts` in `updateFilterStatusLabel`: the non-"All" titles, age first. */
  function FilterParts(ageIndex: nat, categoryIndex: nat): seq<string>
    requires ValidIndices(ageIndex, categoryIndex)
  {
    var ageTitle := AgeTitles()[ageIndex];
    var categoryTitle := CategoryTitles()[categoryIndex];
    (if ageTitle != AgeGroup.All.RawValue() then [ageTitle] else [])
      + (if categoryTitle != Category.All.RawValue() then [categoryTitle] else [])
  }

  datatype Tint = SystemYellow | White

  /** The filter button's tint: yellow while a filter is active. */
  function FilterTint(ageIndex: nat, categoryIndex: nat): (r: Tint)
    ensures r == SystemYellow <==> IsFilterActive(ageIndex, categoryIndex)
  {
    if IsFilterActive(ageIndex, categoryIndex) then SystemYellow else White
  }

  /** The status pill: None when it is hidden, else the text it shows. */
  function StatusText(ageIndex: nat, categoryIndex: nat): Option<string>
    requires ValidIndices(ageIndex, categoryIndex)
  {
    var parts := FilterParts(ageIndex, categoryIndex);
    if parts == [] then None else Some("Filtering: " + Join(parts, ", "))
  }

  /** The pill is shown exactly when the filter button shows "active", and it
      names the selected titles of the non-zero indices, age first. */
  lemma StatusAgreesWithFilterButton(ageIndex: nat, categoryIndex: nat)
    requires ValidIndices(ageIndex, categoryIndex)
    ensures StatusText(ageIndex, categoryIndex).None? <==> !IsFilterActive(ageIndex, categoryIndex)
    ensures FilterParts(ageIndex, categoryIndex)
         == (if ageIndex != 0 then [AgeTitles()[ageIndex]] else [])
          + (if categoryIndex != 0 then [CategoryTitles()[categoryIndex]] else [])
    ensures ageIndex != 0 && categoryIndex == 0 ==>
              StatusText(ageIndex, categoryIndex) == Some("Filtering: " + AgeTitles()[ageIndex])
    ensures ageIndex == 0 && categoryIndex != 0 ==>
              StatusText(ageIndex, categoryIndex) == Some("Filtering: " + CategoryTitles()[categoryIndex])
    ensures ageIndex != 0 && categoryIndex != 0 ==>
              StatusText(ageIndex, categoryIndex)
              == Some("Filtering: " + AgeTitles()[ageIndex] + ", " + CategoryTitles()[categoryIndex])
  {
    AllIsIndexZero(ageIndex, categoryIndex);
    var parts := FilterParts(ageIndex, categoryIndex);
    if ageIndex != 0 && categoryIndex != 0 {
      assert parts == [AgeTitles()[ageIndex], CategoryTitles()[categoryIndex]];
      assert parts[1..] == [CategoryTitles()[categoryIndex]];
      var x, y := AgeTitles()[ageIndex], CategoryTitles()[categoryIndex];
      assert Join(parts, ", ") == x + ", " + y;
      assert "Filtering: " + (x + ", " + y) == "Filtering: " + x + ", " + y;
    }
  }

  /** Kids plus Creative reads "Filtering: Kids, Creative". */
  lemma StatusExample()
    ensures ValidIndices(3, 3) && StatusText(3, 3) == Some("Filtering: Kids, Creative")
  {
    StatusAgreesWithFilterButton(3, 3);
    AgeGroupCasesOrdered(AgeGroup.All);
    CategoryCasesOrdered(Category.All);
    assert AgeTitles()[3] == "Kids" && CategoryTitles()[3] == "Creative";
    assert "Filtering: " + "Kids" + ", " + "Creative" == "Filtering: Kids, Creative";
  }

  /** The part of ActivitiesViewController that holds filter and pick state. */
  class ActivitiesScreen {
    const allActivities: seq<Activity>
    var selectedAgeIndex: nat
    var selectedCategoryIndex: nat
    var currentActivity: Option<Activity>
    var ideaText: string
    var cameraHidden: bool
    var filterIcon: string
    var filterTint: Tint
    var statusPillVisible: bool
    var statusText: string

    ghost predicate Valid()
      reads this
    {
      ValidIndices(selectedAgeIndex, selectedCategoryIndex)
    }

    /** `viewDidLoad`: load the catalog, both filters on "All", refresh the button and pill. */
    constructor (catalog: seq<Activity>)
      ensures Valid()
      ensures allActivities == catalog
      ensures selectedAgeIndex == 0 && selectedCategoryIndex == 0
      ensures currentActivity == None && cameraHidden
      ensures filterIcon == "slider.horizontal.3" && filterTint == White
      ensures !statusPillVisible && statusText == "" && ideaText == ""
    {
      allActivities := catalog;
      selectedAgeIndex, selectedCategoryIndex := 0, 0;
      currentActivity := None;
      ideaText := "";
      cameraHidden := true;
      statusText := "";
      new;
      AllIsIndexZero(0, 0);
      UpdateFilterButtonAppearance();
      UpdateFilterStatusLabel();
    }

    method UpdateFilterButtonAppearance()
      requires Valid()
      modifies this
      ensures Valid()
      ensures filterIcon == FilterIconName(selectedAgeIndex, selectedCategoryIndex)
      ensures filterTint == FilterTint(selectedAgeIndex, selectedCategoryIndex)
      ensures selectedAgeIndex == old(selectedAgeIndex) && selectedCategoryIndex == old(selectedCategoryIndex)
      ensures currentActivity == old(currentActivity) && ideaText == old(ideaText) && cameraHidden == old(cameraHidden)
      ensures statusPillVisible == old(statusPillVisible) && statusText == old(statusText)
    {
      var isFilterActive := selectedAgeIndex != 0 || selectedCategoryIndex != 0;
      filterIcon := if isFilterActive then "slider.horizontal.3.fill" else "slider.horizontal.3";
      filterTint := if isFilterActive then SystemYellow else White;
    }

    /** Builds the parts list step by step; a hidden pill keeps its old text. */
    method UpdateFilterStatusLabel()
      requires Valid()
      modifies this
      ensures Valid()
      ensures statusPillVisible == StatusText(selectedAgeIndex, selectedCategoryIndex).Some?
      ensures statusText == (if statusPillVisible then StatusText(selectedAgeIndex, selectedCategoryIndex).value else old(statusText))
      ensures selectedAgeIndex == old(selectedAgeIndex) && selectedCategoryIndex == old(selectedCategoryIndex)
      ensures currentActivity == old(currentActivity) && ideaText == old(ideaText) && cameraHidden == old(cameraHidden)
      ensures filterIcon == old(filterIcon) && filterTint == old(filterTint)
    {
      var ageTitle := AgeTitles()[selectedAgeIndex];
      var categoryTitle := CategoryTitles()[selectedCategoryIndex];
      var filterParts: seq<string> := [];
      if ageTitle != AgeGroup.All.RawValue() {
        filterParts := filterParts + [ageTitle];
      }
      if categoryTitle != Category.All.RawValue() {
        filterParts := filterParts + [categoryTitle];
      }
      if filterParts == [] {
        statusPillVisible := false;
      } else {
        statusText := "Filtering: " + Join(filterParts, ", ");
        statusPillVisible := true;
      }
    }

    /** `didTapClearFilters`. */
    method ClearFilters()
      requires Valid()
      modifies this
      ensures Valid()
      ensures selectedAgeIndex == 0 && selectedCategoryIndex == 0
      ensures filterIcon == "slider.horizontal.3" && filterTint == White
      ensures !statusPillVisible && statusText == old(statusText)
      ensures currentActivity == old(currentActivity) && ideaText == old(ideaText) && cameraHidden == old(cameraHidden)
    {
      selectedAgeIndex := 0;
      selectedCategoryIndex := 0;
      UpdateFilterButtonAppearance();
      UpdateFilterStatusLabel();
    }

    /** `didApplyFilters`: the picker rows, stored as given. */
    method ApplyFilters(ageIndex: nat, categoryIndex: nat)
      requires Valid() && ValidIndices(ageIndex, categoryIndex)
      modifies this
      ensures Valid()
      ensures selectedAgeIndex == ageIndex && selectedCategoryIndex == categoryIndex
      ensures filterIcon == FilterIconName(ageIndex, categoryIndex)
      ensures filterTint == FilterTint(ageIndex, categoryIndex)
      ensures statusPillVisible == IsFilterActive(ageIndex, categoryIndex)
      ensures statusPillVisible ==> statusText == StatusText(ageIndex, categoryIndex).value
      ensures !statusPillVisible ==> statusText == old(statusText)
      ensures currentActivity == old(currentActivity) && ideaText == old(ideaText) && cameraHidden == old(cameraHidden)
    {
      selectedAgeIndex := ageIndex;
      selectedCategoryIndex := categoryIndex;
      UpdateFilterButtonAppearance();
      UpdateFilterStatusLabel();
      StatusAgreesWithFilterButton(ageIndex, categoryIndex);
    }

    /** The completion body of `didTapGetActivityButton` with `showIdea`'s
        state changes; `randomElement` is a free choice among the candidates. */
    method GetActivity()
      requires Valid()
      modifies this
      ensures Valid()
      ensures var candidates := Candidates(allActivities, selectedAgeIndex, selectedCategoryIndex);
              && (candidates == [] ==> currentActivity == None && ideaText == NoActivitiesMessage)
              && (candidates != [] ==> currentActivity.Some? && currentActivity.value in candidates
                                       && ideaText == currentActivity.value.title)
      ensures cameraHidden <==> currentActivity == None
      ensures selectedAgeIndex == old(selectedAgeIndex) && selectedCategoryIndex == old(selectedCategoryIndex)
      ensures filterIcon == old(filterIcon) && filterTint == old(filterTint) && statusPillVisible == old(statusPillVisible) && statusText == old(statusText)
    {
      var selectedAgeTitle := AgeTitles()[selectedAgeIndex];
      var selectedCategoryTitle := CategoryTitles()[selectedCategoryIndex];
      var filteredActivities := allActivities;
      if selectedAgeTitle != AgeGroup.All.RawValue() {
        filteredActivities := Filter(filteredActivities, (a: Activity) => selectedAgeTitle in a.ageGroups);
      }
      if selectedCategoryTitle != Category.All.RawValue() {
        filteredActivities := Filter(filteredActivities, (a: Activity) => a.category == selectedCategoryTitle);
      }
      if filteredActivities != [] {
        assert filteredActivities[0] in filteredActivities;
        var randomActivity :| randomActivity in filteredActivities;
        currentActivity := Some(randomActivity);
        ideaText := randomActivity.title;
      } else {
        currentActivity := None;
        ideaText := NoActivitiesMessage;
      }
      cameraHidden := currentActivity == None;
    }

    /** `resetView`: the camera button is hidden, the current activity is kept. */
    method ResetView()
      modifies this
      ensures cameraHidden
      ensures currentActivity == old(currentActivity)
      ensures selectedAgeIndex == old(selectedAgeIndex) && selectedCategoryIndex == old(selectedCategoryIndex)
      ensures ideaText == old(ideaText) && filterIcon == old(filterIcon) && filterTint == old(filterTint)
      ensures statusPillVisible == old(statusPillVisible) && statusText == old(statusText)
    {
      cameraHidden := true;
    }

    /** `didTapCaptureMoment`: the text the Add Memory screen is opened with,
        or None when there is no current activity and nothing happens. */
    method CaptureMoment() returns (prefilledText: Option<string>)
      ensures prefilledText.None? <==> currentActivity.None?
      ensures currentActivity.Some? ==> prefilledText == Some(currentActivity.value.title)
    {
      if currentActivity.None? {
        return None;
      }
      prefilledText := Some(currentActivity.value.title);
    }
  }
}
