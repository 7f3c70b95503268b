/**
 * `/api/stories`: GET lists the stories a query selects, newest first, each
 * with its media; POST inserts a story together with its media rows.
 * Substring matching is exact (case-sensitive), as on a database whose
 * `contains` does not fold case.
 */
module StoriesRoute {
  import opened Wrappers
  import opened Http
  import opened Database
  import opened Payloads
  import Seqs
  import Text
  import TagsJson
  import StoryStore
  import Types

  const LIST_ERROR := "Erro ao buscar histórias"
  const CREATE_ERROR := "Erro ao criar história"

  /** The search condition: the text occurs in the title, the content or the author. */
  predicate MentionsText(s: StoryRow, search: string) {
    Text.Contains(s.title, search) || Text.Contains(s.content, search) || Text.Contains(s.author, search)
  }

  /** The `where` clause: `featured=true` and a non-empty `search`, each applied when present. */
  predicate Matches(s: StoryRow, q: Query) {
    var search := Get(q, "search");
    && (Get(q, "featured") == Some("true") ==> s.featured)
    && (search.Some? && search.value != "" ==> MentionsText(s, search.value))
  }

  /** Any `featured` value other than "true" applies no featured condition. */
  lemma FeaturedOnlyWhenTrue(s: StoryRow, q: Query, v: string)
    requires v != "true" && !HasKey(q, "featured")
    ensures Matches(s, [("featured", v)] + q) <==> Matches(s, q)
  {
    GetOtherKey(q, "featured", v, "search");
  }

  /** The parameters the client's `fetchStories` sends select what it asks for. */
  lemma ClientQuery(s: StoryRow, featured: bool, search: Option<string>)
    ensures Matches(s, StoryStore.StoriesQuery(featured, search)) <==>
      && (featured ==> s.featured)
      && (search.Some? && search.value != "" ==> MentionsText(s, search.value))
  {
  }

  predicate NewerOrSame(a: StoryRow, b: StoryRow) {
    a.createdAt >= b.createdAt
  }

  lemma NewerOrSameIsPreorder()
    ensures Seqs.TotalPreorder(NewerOrSame)
  {
  }

  /** A story as listed and as created: the row with its media. */
  datatype StoryWithMedia = StoryWithMedia(story: StoryRow, media: seq<MediaRow>)

  /** The media rows of story `id`, in table order. */
  function MediaOf(media: seq<MediaRow>, id: string): (r: seq<MediaRow>)
    ensures forall m :: m in r <==> m in media && m.storyId == Some(id)
    ensures forall m :: multiset(r)[m] == if m.storyId == Some(id) then multiset(media)[m] else 0
    ensures Seqs.IsSubseq(r, media)
  {
    Seqs.Filter((m: MediaRow) => m.storyId == Some(id), media)
  }

  /** The rows GET selects, newest first. */
  function SelectedRows(stories: seq<StoryRow>, q: Query): (r: seq<StoryRow>)
    ensures Seqs.SortedBy(r, NewerOrSame)
    ensures forall s :: multiset(r)[s] == if Matches(s, q) then multiset(stories)[s] else 0
  {
    NewerOrSameIsPreorder();
    Seqs.SortBy(Seqs.Filter((s: StoryRow) => Matches(s, q), stories), NewerOrSame)
  }

  /** The body of a successful GET. */
  function ListStories(stories: seq<StoryRow>, media: seq<MediaRow>, q: Query): (r: seq<StoryWithMedia>)
    ensures |r| == |SelectedRows(stories, q)|
    ensures forall i :: 0 <= i < |r| ==>
      r[i].story == SelectedRows(stories, q)[i] && r[i].media == MediaOf(media, r[i].story.id)
  {
    var rows := SelectedRows(stories, q);
    seq(|rows|, i requires 0 <= i < |rows| => StoryWithMedia(rows[i], MediaOf(media, rows[i].id)))
  }

  /** With both conditions, a story is listed iff it meets each of them. */
  lemma BothConditions(stories: seq<StoryRow>, media: seq<MediaRow>, s: StoryRow, search: string)
    requires search != "" && s in stories
    ensures var q := [("featured", "true"), ("search", search)];
      s in SelectedRows(stories, q) <==> s.featured && MentionsText(s, search)
  {
    var q := [("featured", "true"), ("search", search)];
    GetOtherKey([("search", search)], "featured", "true", "search");
    assert Get(q, "search") == Some(search);
    var r := SelectedRows(stories, q);
    assert s in r <==> multiset(r)[s] > 0;
  }

  method HandleGet(db: Db, q: Query, fault: bool) returns (resp: Response<seq<StoryWithMedia>>)
    ensures resp == if fault then ServerError(LIST_ERROR) else Ok200(ListStories(db.stories, db.media, q))
  {
    if fault {
      return ServerError(LIST_ERROR);
    }
    resp := Ok200(ListStories(db.stories, db.media, q));
  }

  /** `tags ? JSON.stringify(tags) : null`; an empty list is still a list. */
  function StoredTags(tags: Option<seq<string>>): (r: Option<string>)
    ensures r.Some? <==> tags.Some?
  {
    if tags.Some? then Some(TagsJson.Encode(tags.value)) else None
  }

  /** The media rows the nested `create` makes: type, url and caption of each entry, for story `id`. */
  function NewMediaRows(media: Option<seq<MediaInput>>, id: string, mediaId: nat -> string): (r: seq<MediaRow>)
    ensures media.None? || media.value == [] ==> r == []
    ensures media.Some? ==> |r| == |media.value| && forall i :: 0 <= i < |r| ==>
      r[i] == MediaRow(mediaId(i), media.value[i].kind, media.value[i].url, media.value[i].caption, Some(id))
  {
    if media.Some? && |media.value| > 0 then
      seq(|media.value|, i requires 0 <= i < |media.value| =>
        MediaRow(mediaId(i), media.value[i].kind, media.value[i].url, media.value[i].caption, Some(id)))
    else []
  }

  /** The media ids the client sent are not used. */
  lemma ClientMediaIdsIgnored(media: seq<MediaInput>, ids: seq<Option<string>>, id: string, mediaId: nat -> string)
    requires |ids| == |media|
    ensures NewMediaRows(Some(seq(|media|, i requires 0 <= i < |media| => media[i].(id := ids[i]))), id, mediaId)
         == NewMediaRows(Some(media), id, mediaId)
  {
  }

  /** The story row `create` inserts; None when title, content or author is missing. */
  function NewStoryRow(body: StoryBody, id: string, now: int): (r: Option<StoryRow>)
    ensures r.Some? <==> body.title.Some? && body.content.Some? && body.author.Some?
    ensures r.Some? ==>
      && r.value.id == id
      && r.value.title == body.title.value
      && r.value.content == body.content.value
      && r.value.excerpt == body.excerpt
      && r.value.coverImage == body.coverImage
      && r.value.author == body.author.value
      && r.value.tags == StoredTags(body.tags)
      && r.value.featured == (body.featured == Some(true))
      && r.value.authorId == None && r.value.participantIds == [] && r.value.eventId == None
      && r.value.createdAt == now && r.value.updatedAt == now
  {
    if body.title.None? || body.content.None? || body.author.None? then None
    else
      Some(StoryRow(id, body.title.value, body.content.value, body.excerpt, body.coverImage, body.author.value,
                    None, [], StoredTags(body.tags), body.featured.GetOr(false), None, now, now))
  }

  /** The tags a created story stores are read back by the client as the list that was sent. */
  lemma StoredTagsReadBack(tags: seq<string>, s: Types.Story)
    ensures StoredTags(Some(tags)).Some?
    ensures StoryStore.NormaliseStory(s.(tags := Types.TagsText(StoredTags(Some(tags)).value)))
         == Some(s.(tags := Types.TagsList(tags)))
  {
    StoryStore.NormaliseStoredTags(s, tags);
  }

  /** Ids the table already uses or that repeat among the new rows break the unique key. */
  predicate MediaIdsFresh(media: seq<MediaRow>, rows: seq<MediaRow>) {
    && (forall i, j :: 0 <= i < |media| && 0 <= j < |rows| ==> media[i].id != rows[j].id)
    && (forall i, j :: 0 <= i < j < |rows| ==> rows[i].id != rows[j].id)
  }

  predicate StoryIdTaken(stories: seq<StoryRow>, id: string) {
    exists i :: 0 <= i < |stories| && stories[i].id == id
  }

  /** POST: insert the story and its media rows together, or nothing. */
  method HandlePost(db: Db, body: Option<StoryBody>, id: string, mediaId: nat -> string, now: int, fault: bool)
    returns (resp: Response<StoryWithMedia>)
    modifies db`stories, db`media
    ensures var row := if body.Some? then NewStoryRow(body.value, id, now) else None;
      var rows := if body.Some? then NewMediaRows(body.value.media, id, mediaId) else [];
      if row.Some? && !fault && !StoryIdTaken(old(db.stories), id) && MediaIdsFresh(old(db.media), rows) then
        && db.stories == old(db.stories) + [row.value]
        && db.media == old(db.media) + rows
        && resp == Created(StoryWithMedia(row.value, rows))
      else
        db.stories == old(db.stories) && db.media == old(db.media) && resp == ServerError(CREATE_ERROR)
  {
    var row := if body.Some? then NewStoryRow(body.value, id, now) else None;
    var rows := if body.Some? then NewMediaRows(body.value.media, id, mediaId) else [];
    if row.None? || fault || StoryIdTaken(db.stories, id) || !MediaIdsFresh(db.media, rows) {
      return ServerError(CREATE_ERROR);
    }
    db.stories := db.stories + [row.value];
    db.media := db.media + rows;
    resp := Created(StoryWithMedia(row.value, rows));
  }
}
