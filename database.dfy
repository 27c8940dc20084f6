/** The in-memory entity store (lib/database.ts): users, events and interests
    in three JavaScript `Map`s, with point and bulk lookup, filtered event
    listing, merge-style updates and the RSVP mutation.

    Date filters compare instants: the parameter `instantOf` turns an
    event's `dateTime` text into milliseconds, `None` when it does not parse
    (an invalid `Date` compares false with everything). */
module Store {
  import opened Types
  import opened Seqs
  import opened Text
  import opened OrderedMaps

  // ---------------------------------------------------------------------------
  // Merge-style updates (`{ ...existing, ...updates }`)

  /** A `Partial<User>`: `None` for a property the update does not carry. */
  datatype UserPatch = UserPatch(
    userId: Option<string>,
    username: Option<string>,
    displayName: Option<Option<string>>,
    avatar: Option<Option<string>>,
    interests: Option<seq<string>>,
    attendedEventIds: Option<seq<string>>,
    friendIds: Option<seq<string>>)

  /** A `Partial<Event>`. */
  datatype EventPatch = EventPatch(
    eventId: Option<string>,
    name: Option<string>,
    description: Option<string>,
    dateTime: Option<string>,
    location: Option<string>,
    imageUrl: Option<Option<string>>,
    tags: Option<seq<string>>,
    hostUserId: Option<string>,
    hostName: Option<Option<string>>,
    attendeeIds: Option<seq<string>>,
    interestedUserIds: Option<seq<string>>,
    socialBuzz: Option<Option<SocialBuzz>>)

  function Or<T>(update: Option<T>, existing: T): T
  {
    if update.Some? then update.value else existing
  }

  /** The user a spread merge produces: carried properties overwrite, the
      others are kept. */
  function MergeUser(u: User, p: UserPatch): User
  {
    User(Or(p.userId, u.userId), Or(p.username, u.username), Or(p.displayName, u.displayName),
         Or(p.avatar, u.avatar), Or(p.interests, u.interests),
         Or(p.attendedEventIds, u.attendedEventIds), Or(p.friendIds, u.friendIds))
  }

  function MergeEvent(e: Event, p: EventPatch): Event
  {
    Event(Or(p.eventId, e.eventId), Or(p.name, e.name), Or(p.description, e.description),
          Or(p.dateTime, e.dateTime), Or(p.location, e.location), Or(p.imageUrl, e.imageUrl),
          Or(p.tags, e.tags), Or(p.hostUserId, e.hostUserId), Or(p.hostName, e.hostName),
          Or(p.attendeeIds, e.attendeeIds), Or(p.interestedUserIds, e.interestedUserIds),
          Or(p.socialBuzz, e.socialBuzz))
  }

  /** The update that carries only `socialBuzz`. */
  function BuzzPatch(buzz: SocialBuzz): EventPatch
  {
    EventPatch(None, None, None, None, None, None, None, None, None, None, None, Some(Some(buzz)))
  }

  /** Merging the same update twice is merging it once. */
  lemma MergeEventIdempotent(e: Event, p: EventPatch)
    ensures MergeEvent(MergeEvent(e, p), p) == MergeEvent(e, p)
  {
  }

  /** A buzz-only update replaces the buzz and keeps every other property. */
  lemma BuzzPatchOnlyBuzz(e: Event, buzz: SocialBuzz)
    ensures MergeEvent(e, BuzzPatch(buzz)) == e.(socialBuzz := Some(buzz))
  {
  }

  // ---------------------------------------------------------------------------
  // RSVP

  datatype RsvpStatus = Attending | Interested | NotAttending

  /** One membership list after an RSVP: the user is removed wherever they
      occur, then appended once when `add` holds. */
  function Rejoined(list: seq<string>, userId: string, add: bool): (r: seq<string>)
    ensures userId in r <==> add
    ensures add ==> multiset(r)[userId] == 1 && r[|r| - 1] == userId
    ensures Without(r, userId) == Without(list, userId)
  {
    var kept := Without(list, userId);
    WithoutIdempotent(list, userId);
    if add then
      WithoutAppended(kept, userId);
      assert multiset(kept + [userId])[userId] == multiset(kept)[userId] + 1;
      kept + [userId]
    else kept
  }

  /** The membership lists after an RSVP: the user is removed from both lists,
      then appended to the one the status names. */
  function Rsvp(e: Event, userId: string, status: RsvpStatus): (r: Event)
    ensures r.(attendeeIds := e.attendeeIds, interestedUserIds := e.interestedUserIds) == e
    ensures !(userId in r.attendeeIds && userId in r.interestedUserIds)
    ensures userId in r.attendeeIds <==> status == Attending
    ensures userId in r.interestedUserIds <==> status == Interested
    ensures status == Attending ==>
      multiset(r.attendeeIds)[userId] == 1 && r.attendeeIds[|r.attendeeIds| - 1] == userId
    ensures status == Interested ==>
      multiset(r.interestedUserIds)[userId] == 1 && r.interestedUserIds[|r.interestedUserIds| - 1] == userId
    ensures Without(r.attendeeIds, userId) == Without(e.attendeeIds, userId)
    ensures Without(r.interestedUserIds, userId) == Without(e.interestedUserIds, userId)
  {
    e.(attendeeIds := Rejoined(e.attendeeIds, userId, status == Attending),
       interestedUserIds := Rejoined(e.interestedUserIds, userId, status == Interested))
  }

  /** Only the last RSVP of a user counts: an earlier one leaves no trace. */
  lemma RsvpLastWins(e: Event, userId: string, first: RsvpStatus, second: RsvpStatus)
    ensures Rsvp(Rsvp(e, userId, first), userId, second) == Rsvp(e, userId, second)
  {
    var once := Rsvp(e, userId, first);
    assert Without(once.attendeeIds, userId) == Without(e.attendeeIds, userId);
    assert Without(once.interestedUserIds, userId) == Without(e.interestedUserIds, userId);
  }

  /** Repeating an RSVP changes nothing more. */
  lemma RsvpIdempotent(e: Event, userId: string, status: RsvpStatus)
    ensures Rsvp(Rsvp(e, userId, status), userId, status) == Rsvp(e, userId, status)
  {
    RsvpLastWins(e, userId, status, status);
  }

  /** An RSVP by one user does not touch another user's membership. */
  lemma RsvpOthersUnaffected(e: Event, userId: string, status: RsvpStatus, other: string)
    requires other != userId
    ensures multiset(Rsvp(e, userId, status).attendeeIds)[other] == multiset(e.attendeeIds)[other]
    ensures multiset(Rsvp(e, userId, status).interestedUserIds)[other] == multiset(e.interestedUserIds)[other]
  {
    var r := Rsvp(e, userId, status);
    assert multiset(Without(r.attendeeIds, userId))[other] == multiset(r.attendeeIds)[other];
    assert multiset(Without(e.attendeeIds, userId))[other] == multiset(e.attendeeIds)[other];
    assert multiset(Without(r.interestedUserIds, userId))[other] == multiset(r.interestedUserIds)[other];
    assert multiset(Without(e.interestedUserIds, userId))[other] == multiset(e.interestedUserIds)[other];
  }

  // ---------------------------------------------------------------------------
  // Event listing filters

  /** The optional filters of `getEvents`; dates are instants in ms. */
  datatype EventFilters = EventFilters(
    category: Option<string>,
    location: Option<string>,
    dateFrom: Option<int>,
    dateTo: Option<int>,
    limit: Option<int>)

  const NO_FILTERS: EventFilters := EventFilters(None, None, None, None, None)

  /** A string filter takes part only when it is given and non-empty. */
  predicate Truthy(s: Option<string>)
  {
    s.Some? && s.value != ""
  }

  /** A limit takes part only when it is given and non-zero. */
  predicate LimitApplies(f: EventFilters)
  {
    f.limit.Some? && f.limit.value != 0
  }

  function CategoryStep(f: EventFilters): Event -> bool
  {
    (e: Event) => !Truthy(f.category) || f.category.value in e.tags
  }

  function LocationStep(f: EventFilters): Event -> bool
  {
    (e: Event) => !Truthy(f.location) || Contains(ToLower(e.location), ToLower(f.location.value))
  }

  function FromStep(f: EventFilters, instantOf: string -> Option<int>): Event -> bool
  {
    (e: Event) => f.dateFrom.None? || (instantOf(e.dateTime).Some? && instantOf(e.dateTime).value >= f.dateFrom.value)
  }

  function ToStep(f: EventFilters, instantOf: string -> Option<int>): Event -> bool
  {
    (e: Event) => f.dateTo.None? || (instantOf(e.dateTime).Some? && instantOf(e.dateTime).value <= f.dateTo.value)
  }

  /** An event passes every filter that takes part: it carries the category
      tag, its location contains the location filter ignoring case, and it
      starts within the inclusive date bounds. */
  predicate Matches(f: EventFilters, instantOf: string -> Option<int>, e: Event)
  {
    && (Truthy(f.category) ==> f.category.value in e.tags)
    && (Truthy(f.location) ==> Contains(ToLower(e.location), ToLower(f.location.value)))
    && (f.dateFrom.Some? ==> instantOf(e.dateTime).Some? && instantOf(e.dateTime).value >= f.dateFrom.value)
    && (f.dateTo.Some? ==> instantOf(e.dateTime).Some? && instantOf(e.dateTime).value <= f.dateTo.value)
  }

  function MatchesFilters(f: EventFilters, instantOf: string -> Option<int>): Event -> bool
  {
    (e: Event) => Matches(f, instantOf, e)
  }

  /** One step of the chain: `if (given) events = events.filter(p)`. */
  function Step(given: bool, p: Event -> bool, s: seq<Event>): seq<Event>
  {
    if given then Filter(p, s) else s
  }

  /** A step whose filter is absent keeps everything, so every step is a
      plain filter. */
  lemma StepIsFilter(given: bool, p: Event -> bool, s: seq<Event>)
    requires !given ==> forall e :: p(e)
    ensures Step(given, p, s) == Filter(p, s)
  {
    if !given {
      FilterKeepsAll(p, s);
    }
  }

  /** The filter chain of `getEvents`, applied in the source's order, each
      step only when its filter is given. */
  function FilterChain(all: seq<Event>, f: EventFilters, instantOf: string -> Option<int>): (r: seq<Event>)
    ensures r == Filter(MatchesFilters(f, instantOf), all)
  {
    var s1 := Step(Truthy(f.category), CategoryStep(f), all);
    var s2 := Step(Truthy(f.location), LocationStep(f), s1);
    var s3 := Step(f.dateFrom.Some?, FromStep(f, instantOf), s2);
    var s4 := Step(f.dateTo.Some?, ToStep(f, instantOf), s3);
    FilterChainIsOneFilter(all, f, instantOf);
    s4
  }

  lemma FilterChainIsOneFilter(all: seq<Event>, f: EventFilters, instantOf: string -> Option<int>)
    ensures
      Step(f.dateTo.Some?, ToStep(f, instantOf),
        Step(f.dateFrom.Some?, FromStep(f, instantOf),
          Step(Truthy(f.location), LocationStep(f),
            Step(Truthy(f.category), CategoryStep(f), all))))
      == Filter(MatchesFilters(f, instantOf), all)
  {
    var p1, p2, p3, p4 := CategoryStep(f), LocationStep(f), FromStep(f, instantOf), ToStep(f, instantOf);
    StepIsFilter(Truthy(f.category), p1, all);
    var s1 := Filter(p1, all);
    StepIsFilter(Truthy(f.location), p2, s1);
    var s2 := Filter(p2, s1);
    StepIsFilter(f.dateFrom.Some?, p3, s2);
    var s3 := Filter(p3, s2);
    StepIsFilter(f.dateTo.Some?, p4, s3);
    FilterFilter(p1, p2, all);
    FilterFilter(Both(p1, p2), p3, all);
    FilterFilter(Both(Both(p1, p2), p3), p4, all);
    AllStepsMatch(f, instantOf, all);
  }

  /** The four steps together keep what `Matches` keeps. */
  lemma AllStepsMatch(f: EventFilters, instantOf: string -> Option<int>, all: seq<Event>)
    ensures
      var p1, p2, p3, p4 := CategoryStep(f), LocationStep(f), FromStep(f, instantOf), ToStep(f, instantOf);
      Filter(Both(Both(Both(p1, p2), p3), p4), all) == Filter(MatchesFilters(f, instantOf), all)
  {
    var p1, p2, p3, p4 := CategoryStep(f), LocationStep(f), FromStep(f, instantOf), ToStep(f, instantOf);
    forall i | 0 <= i < |all|
      ensures Both(Both(Both(p1, p2), p3), p4)(all[i]) == MatchesFilters(f, instantOf)(all[i])
    {
    }
    FilterExtensional(Both(Both(Both(p1, p2), p3), p4), MatchesFilters(f, instantOf), all);
  }

  // ---------------------------------------------------------------------------
  // The store

  class Database {
    var users: OrderedMap<string, User>
    var events: OrderedMap<string, Event>
    var interests: OrderedMap<string, Interest>

    ghost predicate Valid()
      reads this
    {
      users.Valid() && events.Valid() && interests.Valid()
    }

    constructor()
      ensures Valid()
      ensures users == Empty() && events == Empty() && interests == Empty()
    {
      users := Empty();
      events := Empty();
      interests := Empty();
    }

    /** `getUser`: the stored user, `None` for an unknown id. */
    function GetUser(userId: string): (r: Option<User>)
      reads this
      ensures r.Some? <==> userId in users.entries
      ensures r.Some? ==> r.value == users.entries[userId]
    {
      users.Get(userId)
    }

    /** `createUser`: stores `user` under its id, replacing any user there. */
    method CreateUser(user: User) returns (r: User)
      requires Valid()
      modifies this
      ensures Valid()
      ensures r == user
      ensures users == old(users).Set(user.userId, user)
      ensures GetUser(user.userId) == Some(user)
      ensures events == old(events) && interests == old(interests)
    {
      users := users.Set(user.userId, user);
      r := user;
    }

    /** `updateUser`: an unknown id yields `None` and changes nothing;
        otherwise the carried properties overwrite the stored user's. */
    method UpdateUser(userId: string, updates: UserPatch) returns (r: Option<User>)
      requires Valid()
      modifies this
      ensures Valid()
      ensures userId !in old(users.entries) ==> r == None && users == old(users)
      ensures userId in old(users.entries) ==>
        && r == Some(MergeUser(old(users.entries[userId]), updates))
        && users == old(users).Set(userId, r.value)
      ensures events == old(events) && interests == old(interests)
    {
      var existing := users.Get(userId);
      if existing.None? {
        return None;
      }
      var updated := MergeUser(existing.value, updates);
      users := users.Set(userId, updated);
      r := Some(updated);
    }

    /** `getUsersByIds`: the stored users of the known ids, in the order of
        `userIds`, unknown ids skipped. */
    function GetUsersByIds(userIds: seq<string>): (r: seq<User>)
      reads this
      ensures |r| <= |userIds|
      ensures |r| == |Filter(InMap(users.entries), userIds)|
      ensures forall i :: 0 <= i < |r| ==> r[i] == users.entries[Filter(InMap(users.entries), userIds)[i]]
      ensures (forall id :: id in userIds ==> id in users.entries) ==> |r| == |userIds|
    {
      FilterKeepsAllIff(InMap(users.entries), userIds);
      LookupAll(userIds, users.entries)
    }

    /** `getEvent`: the stored event, `None` for an unknown id. */
    function GetEvent(eventId: string): (r: Option<Event>)
      reads this
      ensures r.Some? <==> eventId in events.entries
      ensures r.Some? ==> r.value == events.entries[eventId]
    {
      events.Get(eventId)
    }

    /** All stored events in insertion order. */
    function AllEvents(): (r: seq<Event>)
      reads this
      requires Valid()
      ensures |r| == |events.keys|
      ensures forall i :: 0 <= i < |r| ==> r[i] == events.entries[events.keys[i]]
    {
      events.Values()
    }

    /** `getEvents`: the stored events in insertion order that pass every
        given filter, cut to the first `limit` when a non-zero limit is
        given. */
    function GetEvents(filters: EventFilters, instantOf: string -> Option<int>): (r: seq<Event>)
      reads this
      requires Valid()
      ensures SubseqOf(r, AllEvents())
      ensures forall i :: 0 <= i < |r| ==> Matches(filters, instantOf, r[i])
      ensures r <= Filter(MatchesFilters(filters, instantOf), AllEvents())
      ensures !LimitApplies(filters) ==> r == Filter(MatchesFilters(filters, instantOf), AllEvents())
      ensures LimitApplies(filters) && filters.limit.value > 0 ==>
        |r| == var n := |Filter(MatchesFilters(filters, instantOf), AllEvents())|;
               if filters.limit.value < n then filters.limit.value else n
      ensures LimitApplies(filters) && filters.limit.value < 0 ==>
        |r| == var n := |Filter(MatchesFilters(filters, instantOf), AllEvents())|;
               if n + filters.limit.value < 0 then 0 else n + filters.limit.value
    {
      var matching := FilterChain(AllEvents(), filters, instantOf);
      FilterIsSubseq(MatchesFilters(filters, instantOf), AllEvents());
      var r := if LimitApplies(filters) then SliceTo(matching, filters.limit.value) else matching;
      PrefixOfSubseq(r, matching, AllEvents());
      r
    }

    /** `createEvent`: stores `event` under its id, replacing any event there. */
    method CreateEvent(event: Event) returns (r: Event)
      requires Valid()
      modifies this
      ensures Valid()
      ensures r == event
      ensures events == old(events).Set(event.eventId, event)
      ensures GetEvent(event.eventId) == Some(event)
      ensures users == old(users) && interests == old(interests)
    {
      events := events.Set(event.eventId, event);
      r := event;
    }

    /** `updateEvent`: an unknown id yields `None` and changes nothing;
        otherwise the carried properties overwrite the stored event's. */
    method UpdateEvent(eventId: string, updates: EventPatch) returns (r: Option<Event>)
      requires Valid()
      modifies this
      ensures Valid()
      ensures eventId !in old(events.entries) ==> r == None && events == old(events)
      ensures eventId in old(events.entries) ==>
        && r == Some(MergeEvent(old(events.entries[eventId]), updates))
        && events == old(events).Set(eventId, r.value)
      ensures users == old(users) && interests == old(interests)
    {
      var existing := events.Get(eventId);
      if existing.None? {
        return None;
      }
      var updated := MergeEvent(existing.value, updates);
      events := events.Set(eventId, updated);
      r := Some(updated);
    }

    /** `rsvpToEvent`: an unknown event yields false and changes nothing;
        otherwise the event's membership lists become those of `Rsvp` and the
        event keeps its place in the store. */
    method RsvpToEvent(eventId: string, userId: string, status: RsvpStatus) returns (ok: bool)
      requires Valid()
      modifies this
      ensures Valid()
      ensures ok <==> eventId in old(events.entries)
      ensures !ok ==> events == old(events)
      ensures ok ==> events == old(events).Set(eventId, Rsvp(old(events.entries[eventId]), userId, status))
      ensures ok ==> events.keys == old(events.keys)
      ensures users == old(users) && interests == old(interests)
    {
      var event := events.Get(eventId);
      if event.None? {
        return false;
      }
      var e := event.value;
      // Remove from both lists first, then add to the list the status names.
      var attendees := Without(e.attendeeIds, userId);
      var interested := Without(e.interestedUserIds, userId);
      if status == Attending {
        attendees := attendees + [userId];
      } else if status == Interested {
        interested := interested + [userId];
      }
      e := e.(attendeeIds := attendees, interestedUserIds := interested);
      events := events.Set(eventId, e);
      ok := true;
    }

    /** `getInterests`: every stored interest in insertion order. */
    function GetInterests(): (r: seq<Interest>)
      reads this
      requires Valid()
      ensures |r| == |interests.keys|
      ensures forall i :: 0 <= i < |r| ==> r[i] == interests.entries[interests.keys[i]]
    {
      interests.Values()
    }

    /** `createInterest`: stores `interest` under its id. */
    method CreateInterest(interest: Interest) returns (r: Interest)
      requires Valid()
      modifies this
      ensures Valid()
      ensures r == interest
      ensures interests == old(interests).Set(interest.interestId, interest)
      ensures users == old(users) && events == old(events)
    {
      interests := interests.Set(interest.interestId, interest);
      r := interest;
    }
  }

  /** Without filters, `getEvents` lists every stored event in insertion
      order. */
  lemma GetEventsUnfiltered(db: Database, instantOf: string -> Option<int>)
    requires db.Valid()
    ensures db.GetEvents(NO_FILTERS, instantOf) == db.AllEvents()
  {
    FilterKeepsAll(MatchesFilters(NO_FILTERS, instantOf), db.AllEvents());
  }
}
