/** The social layer (lib/social.ts): an append-only activity log, the
    friend views of an event, and the trending-score recalculation that is
    written back to the store.

    The clock and the activity id are parameters: `now` is the time in ms at
    which the operation runs, and every activity recorded by
    `RecordActivity` is stamped with it. */
module Social {
  import opened Types
  import opened Seqs
  import opened Ranking
  import opened OrderedMaps
  import opened Store

  datatype ActivityType = RsvpActivity | InterestActivity | Comment | Share

  /** One entry of the log; `timestamp` is in ms. */
  datatype Activity = Activity(
    id: string,
    kind: ActivityType,
    userId: string,
    eventId: string,
    timestamp: int,
    metadata: Option<map<string, string>>)

  /** An activity is recent when it is strictly later than one hour ago. */
  const ONE_HOUR_MS: int := 60 * 60 * 1000
  const DEFAULT_RECENT_LIMIT: int := 10
  const DEFAULT_USER_ACTIVITY_LIMIT: int := 20
  const MAX_TRENDING: real := 10.0

  /** The connection a friend is shown as. */
  function ToConnection(u: User): (c: SocialConnection)
    ensures c.userId == u.userId && c.username == u.username
    ensures c.displayName == u.displayName && c.avatar == u.avatar
    ensures c.relationship == Friend
  {
    SocialConnection(u.userId, u.username, u.displayName, u.avatar, Friend)
  }

  /** The sort key: newest first. */
  function Timestamp(a: Activity): real
  {
    a.timestamp as real
  }

  function ForEvent(eventId: string): Activity -> bool
  {
    (a: Activity) => a.eventId == eventId
  }

  function ByUser(userId: string): Activity -> bool
  {
    (a: Activity) => a.userId == userId
  }

  function IsRecent(now: int): Activity -> bool
  {
    (a: Activity) => a.timestamp > now - ONE_HOUR_MS
  }

  function NewerThan(eventId: string, since: int): Activity -> bool
  {
    (a: Activity) => a.eventId == eventId && a.timestamp > since
  }

  /** The activities of `eventId` in the last hour, as the source's two
      successive filters keep them. */
  function RecentFor(log: seq<Activity>, eventId: string, now: int): (r: seq<Activity>)
    ensures forall a :: a in r <==> a in log && a.eventId == eventId && a.timestamp > now - ONE_HOUR_MS
    ensures forall a :: multiset(r)[a]
                     == if a.eventId == eventId && a.timestamp > now - ONE_HOUR_MS then multiset(log)[a] else 0
  {
    FilterCount(ForEvent(eventId), log);
    FilterCount(IsRecent(now), Filter(ForEvent(eventId), log));
    Filter(IsRecent(now), Filter(ForEvent(eventId), log))
  }

  /** `Math.min(x, 10)`. */
  function ClampTrending(x: real): (s: real)
    ensures s <= x && s <= MAX_TRENDING
    ensures s == x || s == MAX_TRENDING
  {
    if x < MAX_TRENDING then x else MAX_TRENDING
  }

  /** The recalculated trending score: 0.1 per recent activity, 0.2 per
      attendee and 0.1 per interested user, capped at 10. */
  function TrendingScore(recent: nat, attendees: nat, interested: nat): (s: real)
    ensures 0.0 <= s <= MAX_TRENDING
    ensures s <= 0.1 * recent as real + 0.2 * attendees as real + 0.1 * interested as real
    ensures s == 0.1 * recent as real + 0.2 * attendees as real + 0.1 * interested as real
        <==> 0.1 * recent as real + 0.2 * attendees as real + 0.1 * interested as real <= MAX_TRENDING
    ensures 0.1 * recent as real + 0.2 * attendees as real + 0.1 * interested as real > MAX_TRENDING
        ==> s == MAX_TRENDING
  {
    ClampTrending(0.1 * recent as real + 0.2 * attendees as real + 0.1 * interested as real)
  }

  /** The buzz `updateEventSocialBuzz` stores for `e` given its recent
      activity count. */
  function RecalculatedBuzz(e: Event, recent: nat): (b: SocialBuzz)
    ensures b.friendsAttending == 0
    ensures b.totalAttending == |e.attendeeIds|
    ensures 0.0 <= b.trendingScore <= MAX_TRENDING
    ensures b.trendingScore == TrendingScore(recent, |e.attendeeIds|, |e.interestedUserIds|)
  {
    SocialBuzz(0, |e.attendeeIds|, TrendingScore(recent, |e.attendeeIds|, |e.interestedUserIds|))
  }

  /** More recent activity never lowers the trending score. */
  lemma TrendingMonotone(r1: nat, r2: nat, attendees: nat, interested: nat)
    requires r1 <= r2
    ensures TrendingScore(r1, attendees, interested) <= TrendingScore(r2, attendees, interested)
  {
  }

  /** An activity recorded now for `eventId` is counted as recent for it, and
      no other count changes. */
  lemma RecordedIsRecent(log: seq<Activity>, a: Activity, eventId: string, now: int)
    requires a.timestamp == now
    ensures |RecentFor(log + [a], eventId, now)|
         == |RecentFor(log, eventId, now)| + (if a.eventId == eventId then 1 else 0)
  {
    FilterAppend(ForEvent(eventId), log, [a]);
    FilterSingleton(ForEvent(eventId), a);
    FilterAppend(IsRecent(now), Filter(ForEvent(eventId), log), Filter(ForEvent(eventId), [a]));
    FilterSingleton(IsRecent(now), a);
  }

  /** Recording an activity for an event never lowers the trending score
      recalculated for it, and raises it while the score is below the cap. */
  lemma RecordRaisesTrending(log: seq<Activity>, a: Activity, e: Event, now: int)
    requires a.timestamp == now && a.eventId == e.eventId
    ensures var before := RecalculatedBuzz(e, |RecentFor(log, e.eventId, now)|).trendingScore;
            var after := RecalculatedBuzz(e, |RecentFor(log + [a], e.eventId, now)|).trendingScore;
            before <= after && (before < MAX_TRENDING ==> before < after)
  {
    RecordedIsRecent(log, a, e.eventId, now);
  }

  /** The ids of `ids` that are friends of `user`, excluding the user. */
  function IsMutual(user: User): string -> bool
  {
    (id: string) => id in user.friendIds && id != user.userId
  }

  /** Attendees followed by interested users, filtered to mutual friends. */
  function MutualIds(event: Event, user: User): (r: seq<string>)
    ensures forall id :: id in r <==>
      (id in event.attendeeIds || id in event.interestedUserIds) && id in user.friendIds && id != user.userId
  {
    Filter(IsMutual(user), event.attendeeIds + event.interestedUserIds)
  }

  /** A mutual friend listed in both lists is counted once per listing. */
  lemma MutualIdsCount(event: Event, user: User, id: string)
    requires id in user.friendIds && id != user.userId
    ensures multiset(MutualIds(event, user))[id]
         == multiset(event.attendeeIds)[id] + multiset(event.interestedUserIds)[id]
  {
    FilterCount(IsMutual(user), event.attendeeIds + event.interestedUserIds);
  }

  /** The number of the user's friends among the attendees. */
  function FriendsAmong(ids: seq<string>, user: Option<User>): (n: nat)
    ensures n <= |ids|
    ensures user.None? ==> n == 0
    ensures user.Some? ==> n == |Filter(InSeq(user.value.friendIds), ids)|
    ensures n == 0 <==> user.None? || forall id :: id in ids ==> id !in user.value.friendIds
    ensures n == |ids| <==> ids == [] || (user.Some? && All(InSeq(user.value.friendIds), ids))
  {
    if user.None? then 0
    else
      FilterKeepsAllIff(InSeq(user.value.friendIds), ids);
      FilterEmptyIff(InSeq(user.value.friendIds), ids);
      |Common(ids, user.value.friendIds)|
  }

  class SocialManager {
    var activities: seq<Activity>
    const db: Database

    ghost predicate Valid()
      reads this, db
    {
      db.Valid()
    }

    constructor(db: Database)
      requires db.Valid()
      ensures Valid()
      ensures activities == [] && this.db == db
    {
      activities := [];
      this.db := db;
    }

    /** The stored users of `ids` that are friends of `user`, as connections,
        in the order of `ids`. */
    function FriendViews(ids: seq<string>, user: User): (r: seq<SocialConnection>)
      reads this, db
      ensures |r| == |Filter(InMap(db.users.entries), Common(ids, user.friendIds))|
      ensures forall i :: 0 <= i < |r| ==>
        var id := Filter(InMap(db.users.entries), Common(ids, user.friendIds))[i];
        && id in ids && id in user.friendIds && id in db.users.entries
        && r[i] == ToConnection(db.users.entries[id])
    {
      Map(ToConnection, db.GetUsersByIds(Common(ids, user.friendIds)))
    }

    /** `getFriendsAttending`: the user's stored friends among the attendees. */
    function FriendsAttending(event: Event, user: User): (r: seq<SocialConnection>)
      reads this, db
      ensures r == FriendViews(event.attendeeIds, user)
      ensures |r| <= |event.attendeeIds|
      ensures forall c :: c in r ==> c.relationship == Friend
      ensures (forall id :: id in event.attendeeIds ==> id in db.users.entries && id in user.friendIds)
        ==> |r| == |event.attendeeIds|
      ensures (forall id :: id in event.attendeeIds ==> id !in user.friendIds) ==> r == []
    {
      FriendViewsLength(event.attendeeIds, user);
      FriendViews(event.attendeeIds, user)
    }

    /** `getFriendsInterested`: the user's stored friends among the
        interested users. */
    function FriendsInterested(event: Event, user: User): (r: seq<SocialConnection>)
      reads this, db
      ensures r == FriendViews(event.interestedUserIds, user)
      ensures |r| <= |event.interestedUserIds|
      ensures forall c :: c in r ==> c.relationship == Friend
      ensures (forall id :: id in event.interestedUserIds ==> id in db.users.entries && id in user.friendIds)
        ==> |r| == |event.interestedUserIds|
      ensures (forall id :: id in event.interestedUserIds ==> id !in user.friendIds) ==> r == []
    {
      FriendViewsLength(event.interestedUserIds, user);
      FriendViews(event.interestedUserIds, user)
    }

    lemma FriendViewsLength(ids: seq<string>, user: User)
      ensures |FriendViews(ids, user)| <= |ids|
      ensures (forall id :: id in ids ==> id in db.users.entries && id in user.friendIds)
        ==> |FriendViews(ids, user)| == |ids|
      ensures (forall id :: id in ids ==> id !in user.friendIds) ==> FriendViews(ids, user) == []
    {
      var common := Common(ids, user.friendIds);
      if forall id :: id in ids ==> id in db.users.entries && id in user.friendIds {
        FilterKeepsAll(InSeq(user.friendIds), ids);
        FilterKeepsAll(InMap(db.users.entries), common);
      }
      FilterEmptyIff(InSeq(user.friendIds), ids);
    }

    /** `getMutualFriends`: the stored users among attendees then interested
        users that are friends of `user`, the user excluded. */
    function MutualFriends(event: Event, user: User): (r: seq<SocialConnection>)
      reads this, db
      ensures |r| == |Filter(InMap(db.users.entries), MutualIds(event, user))|
      ensures forall i :: 0 <= i < |r| ==>
        var id := Filter(InMap(db.users.entries), MutualIds(event, user))[i];
        && (id in event.attendeeIds || id in event.interestedUserIds)
        && id in user.friendIds && id != user.userId
        && r[i] == ToConnection(db.users.entries[id])
    {
      Map(ToConnection, db.GetUsersByIds(MutualIds(event, user)))
    }

    /** `recordActivity`: appends one activity stamped `now`, then
        recalculates the buzz of its event. */
    method RecordActivity(kind: ActivityType, userId: string, eventId: string,
                          metadata: Option<map<string, string>>, id: string, now: int)
      requires Valid()
      modifies this, db
      ensures Valid()
      ensures activities == old(activities) + [Activity(id, kind, userId, eventId, now, metadata)]
      ensures eventId !in old(db.events.entries) ==> db.events == old(db.events)
      ensures eventId in old(db.events.entries) ==>
        var e := old(db.events.entries[eventId]);
        db.events == old(db.events).Set(eventId,
          e.(socialBuzz := Some(RecalculatedBuzz(e, |RecentFor(activities, eventId, now)|))))
      ensures db.users == old(db.users) && db.interests == old(db.interests)
    {
      activities := activities + [Activity(id, kind, userId, eventId, now, metadata)];
      UpdateEventSocialBuzz(eventId, now);
    }

    /** `getRecentActivities`: the event's activities, newest first, at most
        `limit` of them. */
    function RecentActivities(eventId: string, limit: int := DEFAULT_RECENT_LIMIT): (r: seq<Activity>)
      reads this
      ensures SortedDesc(r, Timestamp)
      ensures r <= SortDesc(Filter(ForEvent(eventId), activities), Timestamp)
      ensures multiset(r) <= multiset(Filter(ForEvent(eventId), activities))
      ensures NoneDroppedAbove(r, Filter(ForEvent(eventId), activities), Timestamp)
      ensures forall i :: 0 <= i < |r| ==> r[i] in activities && r[i].eventId == eventId
      ensures limit >= 0 ==> |r| == var n := |Filter(ForEvent(eventId), activities)|;
                                   if limit < n then limit else n
    {
      var mine := Filter(ForEvent(eventId), activities);
      var r := TopByKey(mine, Timestamp, limit);
      assert forall i :: 0 <= i < |r| ==> r[i] in mine;
      r
    }

    /** `getUserActivity`: the user's activities, newest first, at most
        `limit` of them. */
    function UserActivity(userId: string, limit: int := DEFAULT_USER_ACTIVITY_LIMIT): (r: seq<Activity>)
      reads this
      ensures SortedDesc(r, Timestamp)
      ensures r <= SortDesc(Filter(ByUser(userId), activities), Timestamp)
      ensures multiset(r) <= multiset(Filter(ByUser(userId), activities))
      ensures NoneDroppedAbove(r, Filter(ByUser(userId), activities), Timestamp)
      ensures forall i :: 0 <= i < |r| ==> r[i] in activities && r[i].userId == userId
      ensures limit >= 0 ==> |r| == var n := |Filter(ByUser(userId), activities)|;
                                   if limit < n then limit else n
    {
      var mine := Filter(ByUser(userId), activities);
      var r := TopByKey(mine, Timestamp, limit);
      assert forall i :: 0 <= i < |r| ==> r[i] in mine;
      r
    }

    /** `updateEventSocialBuzz`: an event unknown to the store is left alone;
        otherwise its buzz is replaced by the recalculated one. */
    method UpdateEventSocialBuzz(eventId: string, now: int)
      requires Valid()
      modifies db
      ensures Valid()
      ensures eventId !in old(db.events.entries) ==> db.events == old(db.events)
      ensures eventId in old(db.events.entries) ==>
        var e := old(db.events.entries[eventId]);
        db.events == old(db.events).Set(eventId,
          e.(socialBuzz := Some(RecalculatedBuzz(e, |RecentFor(activities, eventId, now)|))))
      ensures db.users == old(db.users) && db.interests == old(db.interests)
    {
      var event := db.GetEvent(eventId);
      if event.None? {
        return;
      }
      var e := event.value;
      var recent := RecentFor(activities, eventId, now);
      var buzz := RecalculatedBuzz(e, |recent|);
      BuzzPatchOnlyBuzz(e, buzz);
      var _ := db.UpdateEvent(eventId, BuzzPatch(buzz));
    }

    /** `getSocialBuzz`: a fresh summary that changes nothing; 0.5 per recent
        activity capped at 10, and the user's friends among the attendees. */
    function SocialBuzzOf(event: Event, user: Option<User>, now: int): (b: SocialBuzz)
      reads this
      ensures b.totalAttending == |event.attendeeIds|
      ensures b.friendsAttending == FriendsAmong(event.attendeeIds, user)
      ensures 0 <= b.friendsAttending <= b.totalAttending
      ensures b.friendsAttending == 0 <==>
        user.None? || forall id :: id in event.attendeeIds ==> id !in user.value.friendIds
      ensures 0.0 <= b.trendingScore <= MAX_TRENDING
      ensures 0.5 * |RecentFor(activities, event.eventId, now)| as real <= MAX_TRENDING
        ==> b.trendingScore == 0.5 * |RecentFor(activities, event.eventId, now)| as real
      ensures 0.5 * |RecentFor(activities, event.eventId, now)| as real > MAX_TRENDING
        ==> b.trendingScore == MAX_TRENDING
    {
      var recent := RecentFor(activities, event.eventId, now);
      SocialBuzz(FriendsAmong(event.attendeeIds, user), |event.attendeeIds|,
                 ClampTrending(0.5 * |recent| as real))
    }

    /** `pollForUpdates`: every activity of the event newer than `since`,
        newest first, unlimited. */
    function PollForUpdates(eventId: string, since: int): (r: seq<Activity>)
      reads this
      ensures SortedDesc(r, Timestamp)
      ensures forall a :: a in r <==> a in activities && a.eventId == eventId && a.timestamp > since
      ensures multiset(r) == multiset(Filter(NewerThan(eventId, since), activities))
      ensures r == SortDesc(Filter(NewerThan(eventId, since), activities), Timestamp)
    {
      var newer := Filter(NewerThan(eventId, since), activities);
      var r := SortDesc(newer, Timestamp);
      assert forall a :: a in r <==> a in multiset(newer);
      r
    }
  }
}
