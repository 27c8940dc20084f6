/** The entity shapes shared by the services (lib/types.ts). Optional
    properties (`name?: T`) are `Option` values. */
module Types {

  datatype Option<+T> = None | Some(value: T)

  /** A member of the network, keyed by `userId`. */
  datatype User = User(
    userId: string,
    username: string,
    displayName: Option<string>,
    avatar: Option<string>,
    interests: seq<string>,
    attendedEventIds: seq<string>,
    friendIds: seq<string>)

  /** The cached popularity summary of an event. */
  datatype SocialBuzz = SocialBuzz(friendsAttending: int, totalAttending: int, trendingScore: real)

  /** An event, keyed by `eventId`; `dateTime` is the unparsed timestamp text. */
  datatype Event = Event(
    eventId: string,
    name: string,
    description: string,
    dateTime: string,
    location: string,
    imageUrl: Option<string>,
    tags: seq<string>,
    hostUserId: string,
    hostName: Option<string>,
    attendeeIds: seq<string>,
    interestedUserIds: seq<string>,
    socialBuzz: Option<SocialBuzz>)

  /** Static reference data: one selectable interest. */
  datatype Interest = Interest(interestId: string, name: string, category: Option<string>)

  /** The only relationship tag the social views produce. */
  datatype Relationship = Friend

  /** A lightweight view of a user as seen from another user. */
  datatype SocialConnection = SocialConnection(
    userId: string,
    username: string,
    displayName: Option<string>,
    avatar: Option<string>,
    relationship: Relationship)

  /** A ranked event as the feed renders it. */
  datatype EventRecommendation = EventRecommendation(
    event: Event,
    score: real,
    reasons: seq<string>,
    friendsAttending: seq<SocialConnection>)
}
