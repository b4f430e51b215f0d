/** The record shapes the pages share (the interfaces exported by src/App.tsx).
    JavaScript numbers that hold ids and counters are integers here. */
module Records {

  /** A value or JavaScript's `null`. */
  datatype Option<T> = None | Some(value: T)

  /** `PostType`; its untyped `replies` list is not carried. */
  datatype Post = Post(
    id: int,
    user: string,
    handle: string,
    content: string,
    likes: int,
    shares: int,
    comments: int,
    level: string)

  datatype Organization = Organization(
    id: int,
    name: string,
    handle: string,
    followers: int,
    isFollowing: bool,
    image: string)

  datatype Event = Event(
    id: int,
    name: string,
    description: string,
    date: string,
    time: string,
    location: string,
    attendees: int,
    isAttending: bool)

  datatype UserRanking = UserRanking(
    id: int,
    name: string,
    handle: string,
    avatar: string,
    points: int,
    rank: int,
    badges: seq<string>,
    streak: int)

  /** `votes[i]` is the tally of `options[i]`. */
  datatype Poll = Poll(
    id: int,
    question: string,
    options: seq<string>,
    votes: seq<int>,
    createdBy: string,
    createdAt: string,
    endsAt: string)

  datatype LivestreamStatus = Upcoming | Live | Ended

  datatype Livestream = Livestream(
    id: int,
    title: string,
    description: string,
    organizationId: int,
    startTime: string,
    endTime: string,
    viewers: int,
    status: LivestreamStatus)
}
