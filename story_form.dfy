/**
 * The story form: its schema, the request it builds from the validated
 * fields, the uploaded media and the chosen participants, and the store
 * call it makes once the confirmation gate lets it through.
 */
module StoryForm {
  import opened Wrappers
  import opened Validation
  import opened Payloads
  import Text
  import Seqs
  import Types
  import TagsJson
  import Database
  import StoriesRoute
  import StoryStore
  import MediaUpload
  import Confirmation

  /** The validated form fields; optional ones are None when the form leaves them out. */
  datatype StoryFormData = StoryFormData(
    title: string,
    content: string,
    excerpt: Option<string>,
    author: string,
    tags: Option<string>,
    featured: Option<bool>)

  datatype FormMode = CreateMode | EditMode

  /** The store call a submission makes. */
  datatype StoryCall = CreateStoryCall(body: StoryBody) | UpdateStoryCall(id: string, body: StoryBody)

  /** The schema's issues for one submission. */
  function Issues(d: StoryFormData): (r: seq<Issue>)
    ensures r == [] <==>
      && 3 <= |d.title| <= 100
      && 50 <= |d.content| <= 10000
      && (d.excerpt.None? || |d.excerpt.value| <= 300)
      && 2 <= |d.author| <= 50
    ensures forall i :: 0 <= i < |r| ==> r[i].field in {"title", "content", "excerpt", "author"}
  {
    AtLeast("title", d.title, 3, "O titulo deve ter pelo menos 3 caracteres")
      + AtMost("title", d.title, 100, "O titulo deve ter no maximo 100 caracteres")
      + AtLeast("content", d.content, 50, "A historia deve ter pelo menos 50 caracteres")
      + AtMost("content", d.content, 10000, "A historia deve ter no maximo 10000 caracteres")
      + OptionalAtMost("excerpt", d.excerpt, 300, "O resumo deve ter no maximo 300 caracteres")
      + AtLeast("author", d.author, 2, "O nome do autor deve ter pelo menos 2 caracteres")
      + AtMost("author", d.author, 50, "O nome do autor deve ter no maximo 50 caracteres")
  }

  /** One tag as typed, trimmed and lower-cased. */
  function CleanTag(t: string): (r: string)
    ensures Text.IsTrimmed(r) && Text.IsLower(r)
    ensures ',' !in t ==> ',' !in r
    ensures Text.IsTrimmed(t) && Text.IsLower(t) ==> r == t
  {
    var trimmed := Text.Trim(t);
    Text.LowerKeepsTrimmed(trimmed);
    Text.LowerIdempotent(trimmed);
    assert ',' !in t ==> ',' !in Text.Lower(trimmed) by {
      if ',' !in t {
        Text.TrimLowerKeepsAbsent(t, ',');
      }
    }
    assert Text.IsTrimmed(t) ==> trimmed == t by {
      if Text.IsTrimmed(t) {
        Text.TrimTrimmed(t);
      }
    }
    Text.Lower(trimmed)
  }

  /**
   * The tag list sent with the story: the tag text split at commas, each
   * part cleaned; no tag text, or an empty one, gives no tags. Empty parts
   * between two commas are kept.
   */
  function ParseTags(tags: Option<string>): (r: seq<string>)
    ensures tags.None? || tags.value == [] ==> r == []
    ensures tags.Some? && tags.value != [] ==>
      var parts := Text.Split(tags.value, ',');
      |r| == |parts| && forall i :: 0 <= i < |r| ==> r[i] == CleanTag(parts[i])
    ensures forall i :: 0 <= i < |r| ==> Text.IsTrimmed(r[i]) && Text.IsLower(r[i]) && ',' !in r[i]
  {
    if tags.None? || tags.value == [] then []
    else
      var parts := Text.Split(tags.value, ',');
      assert forall i :: 0 <= i < |parts| ==> ',' !in parts[i];
      seq(|parts|, i requires 0 <= i < |parts| => CleanTag(parts[i]))
  }

  /** The tag text the form starts with: a stored list joined with ", ", a text as it is, or nothing. */
  function DefaultTags(tags: Types.Tags): string {
    match tags
    case TagsList(list) => Text.Join(list, ", ")
    case TagsText(text) => text
    case NoTags => ""
  }

  /** A tag after the ", " separator cleans back to itself. */
  lemma CleanPaddedTag(t: string)
    requires t != [] && Text.IsTrimmed(t) && Text.IsLower(t)
    ensures CleanTag(" " + t) == t
  {
    Text.TrimPadded(" ", t, []);
    assert " " + t + [] == " " + t;
  }

  /** Splitting joined tags at commas gives the tags, each after the first led by the space of the separator. */
  lemma JoinedTagParts(tags: seq<string>)
    requires tags != [] && tags[0] != []
    requires forall t :: t in tags ==> ',' !in t
    ensures Text.Join(tags, ", ") != []
    ensures var parts := Text.Split(Text.Join(tags, ", "), ',');
      && |parts| == |tags| && parts[0] == tags[0]
      && forall i :: 1 <= i < |tags| ==> parts[i] == " " + tags[i]
  {
    var joined := Text.Join(tags, ", ");
    assert |tags| == 1 ==> joined == tags[0];
    assert |tags| > 1 ==> joined == tags[0] + ", " + Text.Join(tags[1..], ", ");
    assert ", " == [','] + " ";
    Text.SplitJoin(tags, ',', " ");
  }

  /** A tag as the form itself writes it: non-empty, trimmed, lower-case, without a comma. */
  predicate IsCleanTag(t: string) {
    t != [] && Text.IsTrimmed(t) && Text.IsLower(t) && ',' !in t
  }

  /** Tags the form itself produced survive an edit untouched: joined for display, they parse back to the same list. */
  lemma DefaultTagsReparse(tags: seq<string>)
    requires forall i :: 0 <= i < |tags| ==> IsCleanTag(tags[i])
    ensures ParseTags(Some(DefaultTags(Types.TagsList(tags)))) == tags
  {
    var joined := Text.Join(tags, ", ");
    assert DefaultTags(Types.TagsList(tags)) == joined;
    if tags != [] {
      assert forall t :: t in tags ==> ',' !in t;
      JoinedTagParts(tags);
      var parts := Text.Split(joined, ',');
      var r := ParseTags(Some(joined));
      forall i | 0 <= i < |tags|
        ensures r[i] == tags[i]
      {
        PartCleansBack(tags[i], parts[i], i == 0);
      }
    }
  }

  lemma PartCleansBack(t: string, part: string, first: bool)
    requires IsCleanTag(t)
    requires part == if first then t else " " + t
    ensures CleanTag(part) == t
  {
    if !first {
      CleanPaddedTag(t);
    }
  }

  /** Entry `i` is an image and no earlier entry is. */
  predicate FirstImageAt(media: seq<MediaUpload.UploadedFile>, i: int) {
    0 <= i < |media| && media[i].kind == "image" && forall j :: 0 <= j < i ==> media[j].kind != "image"
  }

  /** The url of the first uploaded image, the story's cover; None without images. */
  function CoverImage(media: seq<MediaUpload.UploadedFile>): (r: Option<string>)
    ensures r.None? <==> forall i :: 0 <= i < |media| ==> media[i].kind != "image"
    ensures r.Some? ==> exists i :: FirstImageAt(media, i) && media[i].url == r.value
    decreases |media|
  {
    if media == [] then None
    else if media[0].kind == "image" then
      assert FirstImageAt(media, 0);
      Some(media[0].url)
    else
      var r := CoverImage(media[1..]);
      assert r.Some? ==> exists i :: FirstImageAt(media, i) && media[i].url == r.value by {
        if r.Some? {
          var k :| FirstImageAt(media[1..], k) && media[1..][k].url == r.value;
          forall j | 0 <= j < k + 1
            ensures media[j].kind != "image"
          {
            if j > 0 {
              assert media[j] == media[1..][j - 1];
            }
          }
          assert FirstImageAt(media, k + 1);
        }
      }
      r
  }

  /** The request body built from a validated submission. */
  function Request(d: StoryFormData, media: seq<MediaUpload.UploadedFile>, participantIds: seq<string>): StoryBody {
    StoryBody(
      Some(d.title), Some(d.content), d.excerpt, CoverImage(media), Some(d.author),
      Some(ParseTags(d.tags)), Some(d.featured.GetOr(false)), Some(participantIds),
      Some(MediaUpload.MediaInputs(media)))
  }

  /**
   * The create route accepts every request the form builds, stores the
   * fields as the form sent them, marks the story featured exactly when
   * the box was ticked, and the stored tags read back as the parsed list.
   */
  lemma RequestAccepted(d: StoryFormData, media: seq<MediaUpload.UploadedFile>, participantIds: seq<string>,
                        id: string, now: int, s: Types.Story)
    ensures var row := StoriesRoute.NewStoryRow(Request(d, media, participantIds), id, now);
      && row.Some?
      && row.value.title == d.title && row.value.content == d.content && row.value.author == d.author
      && row.value.excerpt == d.excerpt && row.value.coverImage == CoverImage(media)
      && row.value.featured == (d.featured == Some(true))
      && row.value.tags == Some(TagsJson.Encode(ParseTags(d.tags)))
    ensures StoryStore.NormaliseStory(s.(tags := Types.TagsText(TagsJson.Encode(ParseTags(d.tags)))))
      == Some(s.(tags := Types.TagsList(ParseTags(d.tags))))
  {
    StoryStore.NormaliseStoredTags(s, ParseTags(d.tags));
  }

  /** The route makes one media row per uploaded file, with its type and url, in order. */
  lemma MediaReachesServer(media: seq<MediaUpload.UploadedFile>, id: string, mediaId: nat -> string)
    ensures var rows := StoriesRoute.NewMediaRows(Some(MediaUpload.MediaInputs(media)), id, mediaId);
      && |rows| == |media|
      && forall i :: 0 <= i < |rows| ==>
        rows[i].kind == media[i].kind && rows[i].url == media[i].url && rows[i].caption == None
        && rows[i].storyId == Some(id)
  {
  }

  /** Editing a story that has an id updates it; anything else creates a new one. */
  function Dispatch(mode: FormMode, storyId: Option<string>, body: StoryBody): (r: StoryCall)
    ensures r.body == body
    ensures r.UpdateStoryCall? <==> mode == EditMode && storyId.Some? && storyId.value != ""
    ensures r.UpdateStoryCall? ==> r.id == storyId.value
  {
    if mode == EditMode && storyId.Some? && storyId.value != "" then UpdateStoryCall(storyId.value, body)
    else CreateStoryCall(body)
  }

  /**
   * Pressing submit: an invalid form changes nothing; a valid one hands the
   * store call to the confirmation gate, which runs it only once the
   * phrase is typed.
   */
  method Submit(gate: Confirmation.Gate<StoryCall>, mode: FormMode, storyId: Option<string>,
                d: StoryFormData, media: seq<MediaUpload.UploadedFile>, participantIds: seq<string>)
    modifies gate
    ensures Issues(d) != [] ==> gate.State() == old(gate.State())
    ensures Issues(d) == [] ==> gate.State() == Confirmation.Step(old(gate.State()),
      Confirmation.GateEvent.Confirm(Dispatch(mode, storyId, Request(d, media, participantIds))))
  {
    if Issues(d) == [] {
      gate.Confirm(Dispatch(mode, storyId, Request(d, media, participantIds)));
    }
  }
}
