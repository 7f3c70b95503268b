/**
 * The tables the API routes read and write, held in memory. A table is a
 * sequence of rows in insertion order; the counter table is keyed by id.
 * Relations are kept as foreign-key fields: a story's event and author, the
 * members taking part in a story or an event, and a media row's story.
 */
module Database {
  import opened Wrappers

  datatype CounterRow = CounterRow(id: string, brigas: int, acidentes: int, pts: int)

  datatype MemberRow = MemberRow(
    id: string,
    name: string,
    nickname: string,
    avatar: Option<string>,
    bio: Option<string>,
    role: Option<string>,
    joinedAt: int)

  datatype EventRow = EventRow(
    id: string,
    title: string,
    description: Option<string>,
    location: Option<string>,
    date: int,
    coverImage: Option<string>,
    createdBy: string,
    creatorId: Option<string>,
    participantIds: seq<string>,
    status: string,
    createdAt: int,
    updatedAt: int)

  datatype StoryRow = StoryRow(
    id: string,
    title: string,
    content: string,
    excerpt: Option<string>,
    coverImage: Option<string>,
    author: string,
    authorId: Option<string>,
    participantIds: seq<string>,
    tags: Option<string>,
    featured: bool,
    eventId: Option<string>,
    createdAt: int,
    updatedAt: int)

  datatype MediaRow = MediaRow(id: string, kind: string, url: string, caption: Option<string>, storyId: Option<string>)

  class Db {
    var counters: map<string, CounterRow>
    var members: seq<MemberRow>
    var events: seq<EventRow>
    var stories: seq<StoryRow>
    var media: seq<MediaRow>

    constructor()
      ensures counters == map[] && members == [] && events == [] && stories == [] && media == []
    {
      counters := map[];
      members := [];
      events := [];
      stories := [];
      media := [];
    }
  }
}
