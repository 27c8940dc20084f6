/** The recommendation feed (components/EventFeed.tsx): a filter selector
    over the loaded recommendations, and the rules for what the feed shows
    while loading, when nothing matches, and when there is more to load. */
module Feed {
  import opened Types
  import opened Seqs

  datatype FeedFilter = All | Friends | Trending

  /** The trending threshold of the feed filter. */
  const FEED_TRENDING_THRESHOLD: real := 8.0

  /** Whether a recommendation passes the selected filter. */
  predicate Keeps(filter: FeedFilter, rec: EventRecommendation)
  {
    match filter
    case Friends => |rec.friendsAttending| > 0
    case Trending => rec.event.socialBuzz.Some? && rec.event.socialBuzz.value.trendingScore > FEED_TRENDING_THRESHOLD
    case All => true
  }

  function KeptBy(filter: FeedFilter): EventRecommendation -> bool
  {
    (rec: EventRecommendation) => Keeps(filter, rec)
  }

  /** `filteredRecommendations`. */
  function Filtered(recs: seq<EventRecommendation>, filter: FeedFilter): (r: seq<EventRecommendation>)
    ensures SubseqOf(r, recs)
    ensures filter == Friends ==> forall x :: x in r <==> x in recs && x.friendsAttending != []
    ensures filter == Trending ==> forall x :: x in r <==>
      x in recs && x.event.socialBuzz.Some? && x.event.socialBuzz.value.trendingScore > FEED_TRENDING_THRESHOLD
    ensures filter == All ==> r == recs
    ensures forall x :: multiset(r)[x] == if Keeps(filter, x) then multiset(recs)[x] else 0
  {
    FilterIsSubseq(KeptBy(filter), recs);
    FilterCount(KeptBy(filter), recs);
    AllKeepsEverything(recs);
    Filter(KeptBy(filter), recs)
  }

  lemma AllKeepsEverything(recs: seq<EventRecommendation>)
    ensures Filter(KeptBy(All), recs) == recs
  {
    FilterKeepsAll(KeptBy(All), recs);
  }

  class EventFeed {
    var recommendations: seq<EventRecommendation>
    var loading: bool
    var filter: FeedFilter

    /** The feed starts empty, loading, with the `all` filter. */
    constructor()
      ensures recommendations == [] && loading && filter == All
    {
      recommendations := [];
      loading := true;
      filter := All;
    }

    /** The effect of the initial load: `recs` stands for what the mock
        generator produced. */
    method LoadRecommendations(recs: seq<EventRecommendation>)
      modifies this
      ensures recommendations == recs && !loading && filter == old(filter)
    {
      loading := true;
      recommendations := recs;
      loading := false;
    }

    /** A filter button. */
    method SetFilter(f: FeedFilter)
      modifies this
      ensures filter == f
      ensures recommendations == old(recommendations) && loading == old(loading)
    {
      filter := f;
    }

    /** "Show All Events" in the empty state resets the filter. */
    method ShowAll()
      modifies this
      ensures filter == All
      ensures recommendations == old(recommendations) && loading == old(loading)
    {
      SetFilter(All);
    }

    function FilteredRecommendations(): (r: seq<EventRecommendation>)
      reads this
      ensures SubseqOf(r, recommendations)
      ensures forall x :: x in r <==> x in recommendations && Keeps(filter, x)
      ensures forall x :: multiset(r)[x] == if Keeps(filter, x) then multiset(recommendations)[x] else 0
    {
      Filtered(recommendations, filter)
    }

    /** The empty state ("No events match your filter") is shown once loaded
        when nothing passes the filter. */
    function ShowsEmptyState(): (b: bool)
      reads this
      ensures b <==> !loading && forall x :: x in recommendations ==> !Keeps(filter, x)
    {
      FilterEmptyIff(KeptBy(filter), recommendations);
      !loading && FilteredRecommendations() == []
    }

    /** "Load More Events" is shown once loaded when something passes. */
    function ShowsLoadMore(): (b: bool)
      reads this
      ensures b <==> !loading && exists x :: x in recommendations && Keeps(filter, x)
    {
      FilterEmptyIff(KeptBy(filter), recommendations);
      !loading && |FilteredRecommendations()| > 0
    }
  }

  /** Once loaded, the feed shows exactly one of the empty state and the
      "Load More" button. */
  lemma EmptyOrMore(feed: EventFeed)
    requires !feed.loading
    ensures feed.ShowsEmptyState() != feed.ShowsLoadMore()
  {
  }

  /** After "Show All Events" the empty state remains only when there are
      no recommendations at all. */
  lemma ShowAllEmptyOnlyWithoutRecommendations(feed: EventFeed)
    requires feed.filter == All && !feed.loading
    ensures feed.ShowsEmptyState() <==> feed.recommendations == []
  {
    if feed.recommendations != [] {
      assert feed.recommendations[0] in feed.recommendations;
    }
  }
}
