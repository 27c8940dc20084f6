/** The recommendation engine (lib/recommendations.ts): a five-term weighted
    relevance score, the reasons shown beside a recommendation, and three
    ranked listings over the events of the store.

    The listings take the store's events, in store order, as the argument
    `events`. The event's local hour of day, which the source obtains by
    parsing `dateTime`, comes from the parameter `hourOf`; `None` stands for a
    timestamp that does not parse (whose hour is NaN in the source). */
module Recommendations {
  import opened Types
  import opened Seqs
  import opened Text
  import opened Ranking

  datatype TimePreference = Morning | Afternoon | Evening | Night

  /** An hour of the day as `Date.getHours` returns it. */
  type Hour = h: int | 0 <= h < 24

  /** `maxDistance` is accepted and never consulted, as in the source. */
  datatype RecommendationContext = RecommendationContext(
    user: User,
    location: Option<string>,
    timePreference: Option<TimePreference>,
    maxDistance: Option<real>)

  /** An event with its relevance score and the reasons shown for it. */
  datatype ScoredEvent = ScoredEvent(event: Event, score: real, reasons: seq<string>)

  const DEFAULT_RECOMMENDATION_LIMIT: int := 10
  const DEFAULT_TRENDING_LIMIT: int := 5
  const DEFAULT_FRIENDS_LIMIT: int := 10

  // ---------------------------------------------------------------------------
  // The five score terms

  /** Tags of the event that are among the user's interests, in tag order. */
  function MatchingTags(event: Event, user: User): seq<string>
  {
    Common(event.tags, user.interests)
  }

  /** Interest overlap: the matching fraction of the event's tags, weighted 0.4. */
  function InterestTerm(event: Event, user: User): (t: real)
    ensures 0.0 <= t <= 0.4
    ensures t == 0.4 <==> event.tags != [] && All(InSeq(user.interests), event.tags)
  {
    var overlap := |MatchingTags(event, user)|;
    var denominator := if |event.tags| > 1 then |event.tags| else 1;
    var t := (overlap as real / denominator as real) * 0.4;
    FractionBound(overlap, denominator);
    FilterKeepsAllIff(InSeq(user.interests), event.tags);
    t
  }

  /** Number of the user's friends on the attendee list. */
  function FriendsAttendingCount(event: Event, user: User): nat
  {
    |Common(event.attendeeIds, user.friendIds)|
  }

  /** Number of the user's friends on the interested list. */
  function FriendsInterestedCount(event: Event, user: User): nat
  {
    |Common(event.interestedUserIds, user.friendIds)|
  }

  /** Social overlap: 0.1 per attending friend and 0.05 per interested friend,
      capped at 0.3. */
  function SocialTerm(event: Event, user: User): (t: real)
    ensures 0.0 <= t <= 0.3
    ensures t == 0.0 <==> FriendsAttendingCount(event, user) == 0 && FriendsInterestedCount(event, user) == 0
  {
    var raw := (FriendsAttendingCount(event, user) as real
               + FriendsInterestedCount(event, user) as real * 0.5) * 0.1;
    if raw < 0.3 then raw else 0.3
  }

  /** History: the source counts the attended ids through a filter that keeps
      every id, so the term is 0.15 exactly when that list is non-empty. */
  function HistoryTerm(user: User): (t: real)
    ensures t == 0.15 || t == 0.0
    ensures t == 0.15 <==> user.attendedEventIds != []
  {
    if |user.attendedEventIds| > 0 then 0.15 else 0.0
  }

  /** The location preference takes part only when both it and the event's
      location are non-empty strings (JavaScript truthiness). */
  predicate LocationApplies(event: Event, location: Option<string>)
  {
    location.Some? && location.value != "" && event.location != ""
  }

  /** Location: 0.1 by default or on a case-insensitive substring match, 0.05
      on a mismatch. */
  function LocationTerm(event: Event, location: Option<string>): (t: real)
    ensures t == 0.1 || t == 0.05
    ensures t == 0.05 <==>
      LocationApplies(event, location) && !Contains(ToLower(event.location), ToLower(location.value))
  {
    if LocationApplies(event, location) then
      if Contains(ToLower(event.location), ToLower(location.value)) then 0.1 else 0.05
    else 0.1
  }

  /** `isPreferredTime`: whether an hour falls in the preferred part of the day. */
  function IsPreferredTime(hour: int, preference: TimePreference): bool
  {
    match preference
    case Morning => 6 <= hour < 12
    case Afternoon => 12 <= hour < 17
    case Evening => 17 <= hour < 22
    case Night => hour >= 22 || hour < 6
  }

  /** The part of the day an hour belongs to, as an independent classifier. */
  function PartOfDay(hour: Hour): TimePreference
  {
    if hour < 6 then Night
    else if hour < 12 then Morning
    else if hour < 17 then Afternoon
    else if hour < 22 then Evening
    else Night
  }

  /** The time preference takes part only when it is given and the event has a
      non-empty timestamp. */
  predicate TimeApplies(event: Event, preference: Option<TimePreference>)
  {
    preference.Some? && event.dateTime != ""
  }

  /** Whether the event's hour is in the preferred part of the day; an
      unparseable timestamp matches no preference. */
  predicate HourMatches(event: Event, preference: TimePreference, hourOf: string -> Option<Hour>)
  {
    hourOf(event.dateTime).Some? && IsPreferredTime(hourOf(event.dateTime).value, preference)
  }

  /** Time of day: 0.05 by default or on a match, 0.025 on a mismatch. */
  function TimeTerm(event: Event, preference: Option<TimePreference>, hourOf: string -> Option<Hour>): (t: real)
    ensures t == 0.05 || t == 0.025
    ensures t == 0.025 <==> TimeApplies(event, preference) && !HourMatches(event, preference.value, hourOf)
  {
    if TimeApplies(event, preference) then
      if HourMatches(event, preference.value, hourOf) then 0.05 else 0.025
    else 0.05
  }

  /** `calculateRelevanceScore`: the five terms summed, then capped at 1.0.
      The terms never add up to more than 1.0 nor less than 0.075, so the cap
      never changes the sum. */
  function RelevanceScore(event: Event, context: RecommendationContext, hourOf: string -> Option<Hour>): (s: real)
    ensures 0.075 <= s <= 1.0
    ensures s == InterestTerm(event, context.user) + SocialTerm(event, context.user)
               + HistoryTerm(context.user) + LocationTerm(event, context.location)
               + TimeTerm(event, context.timePreference, hourOf)
  {
    var score := 0.0;
    var score := score + InterestTerm(event, context.user);
    var score := score + SocialTerm(event, context.user);
    var score := score + HistoryTerm(context.user);
    var score := score + LocationTerm(event, context.location);
    var score := score + TimeTerm(event, context.timePreference, hourOf);
    if score < 1.0 then score else 1.0
  }

  // ---------------------------------------------------------------------------
  // Reasons

  /** The kinds of reason, in the order the source emits them. */
  datatype Reason =
    | InterestMatch(tags: seq<string>)
    | FriendsAttending(count: nat)
    | Popular
    | Trending

  function Rank(r: Reason): nat
  {
    match r
    case InterestMatch(_) => 0
    case FriendsAttending(_) => 1
    case Popular => 2
    case Trending => 3
  }

  /** The text the source pushes for each reason. */
  function Render(r: Reason): string
  {
    match r
    case InterestMatch(tags) => "Matches your interests: " + Join(tags, ", ")
    case FriendsAttending(n) => NatToString(n) + " friend" + (if n > 1 then "s" else "") + " attending"
    case Popular => "Popular event with high attendance"
    case Trending => "Trending in your network"
  }

  predicate IsPopular(event: Event)
  {
    event.socialBuzz.Some? && event.socialBuzz.value.totalAttending > 10
  }

  predicate IsTrendingInNetwork(event: Event)
  {
    event.socialBuzz.Some? && event.socialBuzz.value.trendingScore > 7.0
  }

  /** Reasons in strictly increasing rank: each kind at most once, in the
      fixed order. */
  ghost predicate RankOrdered(rs: seq<Reason>)
  {
    forall i, j :: 0 <= i < j < |rs| ==> Rank(rs[i]) < Rank(rs[j])
  }

  /** The one-reason list when `cond` holds, else the empty list. */
  function ReasonIf(cond: bool, r: Reason): (rs: seq<Reason>)
    ensures forall x :: x in rs <==> cond && x == r
    ensures RankOrdered(rs)
  {
    if cond then [r] else []
  }

  /** The reasons whose conditions hold, in the fixed order. */
  function Assemble(matching: seq<string>, friends: nat,
                    interest: bool, social: bool, popular: bool, trending: bool): (rs: seq<Reason>)
    ensures forall x :: x in rs <==>
      || (interest && x == InterestMatch(matching))
      || (social && x == FriendsAttending(friends))
      || (popular && x == Popular)
      || (trending && x == Trending)
  {
    ReasonIf(interest, InterestMatch(matching)) + ReasonIf(social, FriendsAttending(friends))
      + ReasonIf(popular, Popular) + ReasonIf(trending, Trending)
  }

  lemma AssembleOrdered(matching: seq<string>, friends: nat,
                        interest: bool, social: bool, popular: bool, trending: bool)
    ensures RankOrdered(Assemble(matching, friends, interest, social, popular, trending))
  {
    var a := ReasonIf(interest, InterestMatch(matching));
    var b := ReasonIf(social, FriendsAttending(friends));
    var c := ReasonIf(popular, Popular);
    var d := ReasonIf(trending, Trending);
    RankAppend(a, b, 1);
    RankAppend(a + b, c, 2);
    RankAppend(a + b + c, d, 3);
  }

  /** `generateReasons`, before rendering: the interest, friends, popularity
      and trending reasons, each when its condition holds. */
  function ReasonsFor(event: Event, user: User): seq<Reason>
  {
    var matching := MatchingTags(event, user);
    var friends := FriendsAttendingCount(event, user);
    Assemble(matching, friends, |matching| > 0, friends > 0, IsPopular(event), IsTrendingInNetwork(event))
  }

  /** Each kind of reason appears at most once, in the fixed order. */
  lemma ReasonsOrdered(event: Event, user: User)
    ensures RankOrdered(ReasonsFor(event, user))
  {
    var matching := MatchingTags(event, user);
    var friends := FriendsAttendingCount(event, user);
    AssembleOrdered(matching, friends, |matching| > 0, friends > 0, IsPopular(event), IsTrendingInNetwork(event));
  }

  /** The interest reason appears exactly when some tag is among the user's
      interests, and lists the matching tags in tag order. */
  lemma InterestReason(event: Event, user: User)
    ensures (exists r :: r in ReasonsFor(event, user) && r.InterestMatch?)
            <==> exists t :: t in event.tags && t in user.interests
    ensures forall r :: r in ReasonsFor(event, user) && r.InterestMatch? ==> r.tags == MatchingTags(event, user)
  {
    var matching := MatchingTags(event, user);
    if matching != [] {
      assert matching[0] in matching;
      assert InterestMatch(matching) in ReasonsFor(event, user);
    }
  }

  /** The friends reason appears exactly when some attendee is a friend, and
      carries the number of attending friends. */
  lemma FriendsReason(event: Event, user: User)
    ensures (exists r :: r in ReasonsFor(event, user) && r.FriendsAttending?)
            <==> exists f :: f in event.attendeeIds && f in user.friendIds
    ensures forall r :: r in ReasonsFor(event, user) && r.FriendsAttending? ==> r.count == FriendsAttendingCount(event, user)
  {
    var friends := FriendsAttendingCount(event, user);
    var common := Common(event.attendeeIds, user.friendIds);
    if friends > 0 {
      assert common[0] in common;
      assert FriendsAttending(friends) in ReasonsFor(event, user);
    }
  }

  /** The popularity and trending reasons appear exactly when their buzz
      thresholds are passed. */
  lemma BuzzReasons(event: Event, user: User)
    ensures Popular in ReasonsFor(event, user) <==> IsPopular(event)
    ensures Trending in ReasonsFor(event, user) <==> IsTrendingInNetwork(event)
  {
  }

  /** Appending reasons ranked at least `k` to reasons ranked below `k` keeps
      the order. */
  lemma RankAppend(a: seq<Reason>, b: seq<Reason>, k: nat)
    requires RankOrdered(a) && RankOrdered(b)
    requires forall x :: x in a ==> Rank(x) < k
    requires forall y :: y in b ==> Rank(y) >= k
    ensures RankOrdered(a + b)
  {
    var ab := a + b;
    forall i, j | 0 <= i < j < |ab|
      ensures Rank(ab[i]) < Rank(ab[j])
    {
      if j < |a| {
        assert ab[i] == a[i] && ab[j] == a[j];
      } else if i >= |a| {
        assert ab[i] == b[i - |a|] && ab[j] == b[j - |a|];
      } else {
        assert ab[i] == a[i] && ab[j] == b[j - |a|];
        assert a[i] in a && b[j - |a|] in b;
      }
    }
  }

  /** `generateReasons`: the reason texts. */
  function GenerateReasons(event: Event, user: User): (r: seq<string>)
    ensures |r| == |ReasonsFor(event, user)|
    ensures forall i :: 0 <= i < |r| ==> r[i] == Render(ReasonsFor(event, user)[i])
  {
    Map(Render, ReasonsFor(event, user))
  }

  // ---------------------------------------------------------------------------
  // Listings

  function ScoreOf(s: ScoredEvent): real
  {
    s.score
  }

  /** The per-event step of `getRecommendations`. */
  function Scorer(context: RecommendationContext, hourOf: string -> Option<Hour>): Event -> ScoredEvent
  {
    e => ScoredEvent(e, RelevanceScore(e, context, hourOf), GenerateReasons(e, context.user))
  }

  predicate HasPositiveScore(s: ScoredEvent)
  {
    s.score > 0.0
  }

  /** `getRecommendations`: score every event, keep those scoring above 0,
      sort by score (highest first, ties in store order), keep `limit`. As
      every score is at least 0.075, the filter keeps everything and the
      result has min(|events|, limit) entries. */
  function GetRecommendations(events: seq<Event>, context: RecommendationContext,
                              hourOf: string -> Option<Hour>,
                              limit: int := DEFAULT_RECOMMENDATION_LIMIT): (r: seq<ScoredEvent>)
    ensures SortedDesc(r, ScoreOf)
    ensures r <= SortDesc(Map(Scorer(context, hourOf), events), ScoreOf)
    ensures multiset(r) <= multiset(Map(Scorer(context, hourOf), events))
    ensures NoneDroppedAbove(r, Map(Scorer(context, hourOf), events), ScoreOf)
    ensures limit >= 0 ==> |r| == if limit < |events| then limit else |events|
    ensures forall i :: 0 <= i < |r| ==>
      && r[i].event in events
      && r[i].score > 0.0
      && r[i].score == RelevanceScore(r[i].event, context, hourOf)
      && r[i].reasons == GenerateReasons(r[i].event, context.user)
  {
    var scored := Map(Scorer(context, hourOf), events);
    var relevant := Filter(HasPositiveScore, scored);
    FilterKeepsAll(HasPositiveScore, scored);
    ScoredFromEvents(events, context, hourOf);
    TopByKey(relevant, ScoreOf, limit)
  }

  predicate IsTrendingEvent(event: Event)
  {
    event.socialBuzz.Some? && event.socialBuzz.value.trendingScore > 5.0
  }

  /** The sort key `socialBuzz?.trendingScore || 0`. */
  function TrendingKey(event: Event): real
  {
    if event.socialBuzz.Some? then event.socialBuzz.value.trendingScore else 0.0
  }

  /** `getTrendingEvents`: the events whose buzz score exceeds 5, highest
      first, at most `limit` of them. */
  function GetTrendingEvents(events: seq<Event>, limit: int := DEFAULT_TRENDING_LIMIT): (r: seq<Event>)
    ensures SortedDesc(r, TrendingKey)
    ensures r <= SortDesc(Filter(IsTrendingEvent, events), TrendingKey)
    ensures multiset(r) <= multiset(Filter(IsTrendingEvent, events))
    ensures NoneDroppedAbove(r, Filter(IsTrendingEvent, events), TrendingKey)
    ensures forall i :: 0 <= i < |r| ==> r[i] in events && IsTrendingEvent(r[i])
    ensures limit >= 0 ==> |r| == if limit < |Filter(IsTrendingEvent, events)| then limit
                                  else |Filter(IsTrendingEvent, events)|
  {
    var trending := Filter(IsTrendingEvent, events);
    TopByKey(trending, TrendingKey, limit)
  }

  /** Some friend of `user` attends or is interested in the event. */
  function HasFriendActivity(user: User): Event -> bool
  {
    e => FriendsAttendingCount(e, user) > 0 || FriendsInterestedCount(e, user) > 0
  }

  /** The sort key of `getEventsByFriends`: friends attending plus friends
      interested. */
  function FriendActivityKey(user: User): Event -> real
  {
    e => (FriendsAttendingCount(e, user) + FriendsInterestedCount(e, user)) as real
  }

  /** `getEventsByFriends`: the events a friend attends or is interested in,
      most friend activity first, at most `limit` of them. */
  function GetEventsByFriends(events: seq<Event>, user: User, limit: int := DEFAULT_FRIENDS_LIMIT): (r: seq<Event>)
    ensures SortedDesc(r, FriendActivityKey(user))
    ensures r <= SortDesc(Filter(HasFriendActivity(user), events), FriendActivityKey(user))
    ensures multiset(r) <= multiset(Filter(HasFriendActivity(user), events))
    ensures NoneDroppedAbove(r, Filter(HasFriendActivity(user), events), FriendActivityKey(user))
    ensures forall i :: 0 <= i < |r| ==> r[i] in events
    ensures forall i :: 0 <= i < |r| ==> FriendActive(r[i], user)
    ensures limit >= 0 ==> |r| == if limit < |Filter(HasFriendActivity(user), events)| then limit
                                  else |Filter(HasFriendActivity(user), events)|
  {
    var active := Filter(HasFriendActivity(user), events);
    var r := TopByKey(active, FriendActivityKey(user), limit);
    forall i | 0 <= i < |r|
      ensures FriendActive(r[i], user)
    {
      FriendActivityWitness(r[i], user);
    }
    r
  }

  /** Some friend of `user` is on the event's attendee or interested list. */
  ghost predicate FriendActive(event: Event, user: User)
  {
    (exists f :: f in event.attendeeIds && f in user.friendIds)
    || (exists f :: f in event.interestedUserIds && f in user.friendIds)
  }

  lemma FriendActivityWitness(e: Event, user: User)
    requires HasFriendActivity(user)(e)
    ensures FriendActive(e, user)
  {
    if FriendsAttendingCount(e, user) > 0 {
      assert Common(e.attendeeIds, user.friendIds)[0] in Common(e.attendeeIds, user.friendIds);
    } else {
      assert Common(e.interestedUserIds, user.friendIds)[0] in Common(e.interestedUserIds, user.friendIds);
    }
  }

  /** Every scored entry carries its own event's score and reasons. */
  lemma ScoredFromEvents(events: seq<Event>, context: RecommendationContext, hourOf: string -> Option<Hour>)
    ensures forall s :: s in Map(Scorer(context, hourOf), events) ==>
      s.event in events && s == Scorer(context, hourOf)(s.event)
  {
    var scored := Map(Scorer(context, hourOf), events);
    forall s | s in scored
      ensures s.event in events && s == Scorer(context, hourOf)(s.event)
    {
      var j :| 0 <= j < |scored| && scored[j] == s;
      assert s.event == events[j];
    }
  }

  // ---------------------------------------------------------------------------
  // Lemmas

  /** `n / d`, for `0 <= n <= d` and `d >= 1`, lies in [0, 1] and is 1 only
      when `n == d`. */
  lemma FractionBound(n: nat, d: nat)
    requires 1 <= d && n <= d
    ensures 0.0 <= n as real / d as real <= 1.0
    ensures n as real / d as real == 1.0 <==> n == d
  {
    var q := n as real / d as real;
    assert q * d as real == n as real;
  }

  /** Every hour of the day satisfies exactly one of the four preferences:
      the one its part of the day names. */
  lemma PreferredTimePartition(hour: Hour, preference: TimePreference)
    ensures IsPreferredTime(hour, preference) <==> preference == PartOfDay(hour)
  {
  }

  /** A worked example: two tags of which one matches, one
      attending friend, some history and no preferences score 0.60. */
  lemma WorkedExample(hourOf: string -> Option<Hour>)
    ensures
      var user := User("u", "u", None, None, ["music", "tech"], ["e0"], ["f1"]);
      var event := Event("e1", "", "", "", "", None, ["music", "art"], "h", None, ["f1"], [], None);
      var context := RecommendationContext(user, None, None, None);
      RelevanceScore(event, context, hourOf) == 0.60
  {
    var user := User("u", "u", None, None, ["music", "tech"], ["e0"], ["f1"]);
    var event := Event("e1", "", "", "", "", None, ["music", "art"], "h", None, ["f1"], [], None);
    assert MatchingTags(event, user) == ["music"] by {
      assert "art" != "music" && "art" != "tech";
      assert ["music", "art"][1..] == ["art"];
    }
    assert FriendsAttendingCount(event, user) == 1 by {
      assert ["f1"][1..] == [];
    }
    assert FriendsInterestedCount(event, user) == 0;
  }

  /** The count in the friends reason reads back as the number of attending
      friends, and "friend" is singular exactly when there is one. */
  lemma FriendsReasonText(n: nat)
    requires n >= 1
    ensures Render(FriendsAttending(n)) == NatToString(n) + (if n == 1 then " friend attending" else " friends attending")
    ensures DigitsValue(NatToString(n)) == n
  {
    NatToStringRoundTrip(n);
  }

  /** With room for all of them, each listing returns every qualifying entry,
      each exactly as often as it occurs in its input: every scored event for
      the recommendations, the trending or friend-active events for the
      other two. */
  lemma ListingsCompleteWithRoom(events: seq<Event>, context: RecommendationContext,
                                 hourOf: string -> Option<Hour>, user: User, limit: int)
    requires limit >= |events|
    ensures multiset(GetRecommendations(events, context, hourOf, limit))
         == multiset(Map(Scorer(context, hourOf), events))
    ensures multiset(GetTrendingEvents(events, limit)) == multiset(Filter(IsTrendingEvent, events))
    ensures multiset(GetEventsByFriends(events, user, limit)) == multiset(Filter(HasFriendActivity(user), events))
  {
    var scored := Map(Scorer(context, hourOf), events);
    FullPrefix(GetRecommendations(events, context, hourOf, limit), SortDesc(scored, ScoreOf));
    var trending := Filter(IsTrendingEvent, events);
    FullPrefix(GetTrendingEvents(events, limit), SortDesc(trending, TrendingKey));
    var active := Filter(HasFriendActivity(user), events);
    FullPrefix(GetEventsByFriends(events, user, limit), SortDesc(active, FriendActivityKey(user)));
  }

  /** Equal scores keep store order: the recommendations sharing one score are
      the first of the events with that score, in the order of `events`. */
  lemma RecommendationsStable(events: seq<Event>, context: RecommendationContext,
                              hourOf: string -> Option<Hour>, limit: int, k: real)
    ensures Filter(KeyIs(ScoreOf, k), GetRecommendations(events, context, hourOf, limit))
         <= Filter(KeyIs(ScoreOf, k), Map(Scorer(context, hourOf), events))
  {
    var scored := Map(Scorer(context, hourOf), events);
    FilterKeepsAll(HasPositiveScore, scored);
    TopByKeyStable(scored, ScoreOf, limit, k);
  }
}
