/**
 * The records the client works with: media items, members, stories and
 * events, and the three closed string enumerations, each as a datatype with
 * its wire name and a parser that accepts exactly those names.
 * Timestamps are integers (milliseconds); the ISO strings they travel as are
 * not modelled.
 */
module Types {
  import opened Wrappers

  /** The `type` of a media item. */
  datatype MediaType = Image | Video | Audio

  function MediaTypeName(t: MediaType): string {
    match t
    case Image => "image"
    case Video => "video"
    case Audio => "audio"
  }

  function ParseMediaType(s: string): (r: Option<MediaType>)
    ensures r.Some? <==> s == "image" || s == "video" || s == "audio"
    ensures r.Some? ==> MediaTypeName(r.value) == s
  {
    if s == "image" then Some(Image)
    else if s == "video" then Some(Video)
    else if s == "audio" then Some(Audio)
    else None
  }

  /** Every media type has its own name, and the name reads back as that type. */
  lemma MediaTypeRoundTrip(t: MediaType)
    ensures ParseMediaType(MediaTypeName(t)) == Some(t)
  {
  }

  datatype EventStatus = Upcoming | Ongoing | Completed | Cancelled

  function StatusName(s: EventStatus): string {
    match s
    case Upcoming => "upcoming"
    case Ongoing => "ongoing"
    case Completed => "completed"
    case Cancelled => "cancelled"
  }

  function ParseStatus(s: string): (r: Option<EventStatus>)
    ensures r.Some? <==> s == "upcoming" || s == "ongoing" || s == "completed" || s == "cancelled"
    ensures r.Some? ==> StatusName(r.value) == s
  {
    if s == "upcoming" then Some(Upcoming)
    else if s == "ongoing" then Some(Ongoing)
    else if s == "completed" then Some(Completed)
    else if s == "cancelled" then Some(Cancelled)
    else None
  }

  lemma StatusRoundTrip(s: EventStatus)
    ensures ParseStatus(StatusName(s)) == Some(s)
  {
  }

  /** Which view of the cached stories the story list shows. */
  datatype StoryFilter = AllStories | FeaturedStories | RecentStories

  function FilterName(f: StoryFilter): string {
    match f
    case AllStories => "all"
    case FeaturedStories => "featured"
    case RecentStories => "recent"
  }

  function ParseFilter(s: string): (r: Option<StoryFilter>)
    ensures r.Some? <==> s == "all" || s == "featured" || s == "recent"
    ensures r.Some? ==> FilterName(r.value) == s
  {
    if s == "all" then Some(AllStories)
    else if s == "featured" then Some(FeaturedStories)
    else if s == "recent" then Some(RecentStories)
    else None
  }

  lemma FilterRoundTrip(f: StoryFilter)
    ensures ParseFilter(FilterName(f)) == Some(f)
  {
  }

  datatype MediaItem = MediaItem(id: string, kind: MediaType, url: string, caption: Option<string>)

  datatype Member = Member(
    id: string,
    name: string,
    nickname: string,
    avatar: Option<string>,
    bio: Option<string>,
    role: Option<string>,
    joinedAt: int)

  /**
   * A story's `tags` as they arrive: the JSON text the server stores, an
   * array already decoded, or nothing (`null` / absent).
   */
  datatype Tags = TagsText(text: string) | TagsList(list: seq<string>) | NoTags

  datatype Story = Story(
    id: string,
    title: string,
    content: string,
    excerpt: Option<string>,
    media: seq<MediaItem>,
    coverImage: Option<string>,
    author: string,
    authorId: Option<string>,
    participantIds: Option<seq<string>>,
    createdAt: int,
    updatedAt: int,
    tags: Tags,
    featured: bool,
    eventId: Option<string>)

  datatype Event = Event(
    id: string,
    title: string,
    description: Option<string>,
    location: Option<string>,
    date: int,
    coverImage: Option<string>,
    createdBy: string,
    creatorId: Option<string>,
    participantIds: Option<seq<string>>,
    status: EventStatus,
    createdAt: int,
    updatedAt: int)
}
