/** The onboarding interest picker (components/InterestSelector.tsx): a
    selection of interest ids that each button toggles, and the rule that
    the complete button needs at least one interest. */
module InterestPicker {
  import opened Seqs

  /** A selectable interest: its id and its label. */
  datatype Choice = Choice(id: string, name: string)

  /** The ten interests on offer, in display order. */
  const AVAILABLE_INTERESTS: seq<Choice> := [
    Choice("music", "Music & Concerts"),
    Choice("tech", "Technology & AI"),
    Choice("art", "Art & Culture"),
    Choice("sports", "Sports & Fitness"),
    Choice("food", "Food & Dining"),
    Choice("social", "Social & Networking"),
    Choice("business", "Business & Finance"),
    Choice("education", "Education & Learning"),
    Choice("travel", "Travel & Adventure"),
    Choice("gaming", "Gaming & Entertainment")
  ]

  function AvailableIds(): (ids: seq<string>)
    ensures |ids| == |AVAILABLE_INTERESTS|
    ensures forall i :: 0 <= i < |ids| ==> ids[i] == AVAILABLE_INTERESTS[i].id
  {
    Map((c: Choice) => c.id, AVAILABLE_INTERESTS)
  }

  /** No id is selected twice. */
  ghost predicate Distinct(s: seq<string>)
  {
    forall x :: multiset(s)[x] <= 1
  }

  /** The next selection after a click on `id`: a selected id is removed
      wherever it occurs, an unselected one is appended. */
  function Toggled(prev: seq<string>, id: string): (r: seq<string>)
    ensures id in r <==> id !in prev
    ensures multiset(r)[id] == if id in prev then 0 else 1
    ensures forall x :: x != id ==> multiset(r)[x] == multiset(prev)[x]
    ensures id !in prev ==> r == prev + [id]
    ensures id in prev ==> SubseqOf(r, prev)
  {
    if id in prev then
      FilterIsSubseq(NotEqual(id), prev);
      Without(prev, id)
    else
      assert multiset(prev)[id] == 0;
      prev + [id]
  }

  /** Clicking an unselected interest twice restores the selection. */
  lemma ToggleTwiceRestores(prev: seq<string>, id: string)
    requires id !in prev
    ensures Toggled(Toggled(prev, id), id) == prev
  {
    WithoutAppended(prev, id);
    FilterKeepsAll(NotEqual(id), prev);
  }

  /** Toggling keeps the selection free of duplicates. */
  lemma ToggleKeepsDistinct(prev: seq<string>, id: string)
    requires Distinct(prev)
    ensures Distinct(Toggled(prev, id))
  {
    var r := Toggled(prev, id);
    forall x
      ensures multiset(r)[x] <= 1
    {
      if x != id {
        assert multiset(r)[x] == multiset(prev)[x];
      }
    }
  }

  /** Toggling an offered interest keeps the selection within the offer. */
  lemma ToggleKeepsAvailable(prev: seq<string>, id: string)
    requires forall x :: x in prev ==> x in AvailableIds()
    requires id in AvailableIds()
    ensures forall x :: x in Toggled(prev, id) ==> x in AvailableIds()
  {
    var r := Toggled(prev, id);
    forall x | x in r
      ensures x in AvailableIds()
    {
      if x != id {
        assert x in multiset(r);
        assert multiset(prev)[x] > 0;
      }
    }
  }

  /** What `handleComplete` reports, in the order it reports it. */
  datatype Notification = InterestsChanged(interests: seq<string>) | Completed

  class InterestSelector {
    var selectedInterests: seq<string>

    /** The selection starts as the user's current interests. */
    constructor(currentInterests: seq<string>)
      ensures selectedInterests == currentInterests
    {
      selectedInterests := currentInterests;
    }

    /** `toggleInterest`. */
    method ToggleInterest(interestId: string)
      modifies this
      ensures selectedInterests == Toggled(old(selectedInterests), interestId)
    {
      if interestId in selectedInterests {
        selectedInterests := Without(selectedInterests, interestId);
      } else {
        selectedInterests := selectedInterests + [interestId];
      }
    }

    /** `handleComplete`: the selection is handed over first, then
        completion is signalled. */
    method HandleComplete() returns (calls: seq<Notification>)
      ensures |calls| == 2 && calls[1] == Completed
      ensures calls[0] == InterestsChanged(selectedInterests)
    {
      calls := [InterestsChanged(selectedInterests), Completed];
    }

    /** The complete button is disabled exactly when nothing is selected. */
    function CompleteDisabled(): (d: bool)
      reads this
      ensures d <==> |selectedInterests| == 0
    {
      |selectedInterests| == 0
    }

    /** The complete button's label. */
    function CompleteLabel(): (s: string)
      reads this
      ensures s == "Select at least one interest" <==> CompleteDisabled()
      ensures s == "Get My Recommendations!" <==> !CompleteDisabled()
    {
      if |selectedInterests| == 0 then "Select at least one interest" else "Get My Recommendations!"
    }
  }
}
