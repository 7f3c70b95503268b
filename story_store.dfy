/**
 * The client's story cache: the cached stories, a loading flag, the last
 * error and the chosen view. Each server reply is a parameter of the
 * operation that awaits it. Stories arrive with their tags either as the JSON
 * text the server stores or already as a list, and are normalised to a list
 * before they enter the cache.
 */
module StoryStore {
  import opened Wrappers
  import opened Types
  import opened Http
  import Seqs
  import TagsJson

  const FETCH_ERROR := "Erro ao buscar histórias"
  const CREATE_ERROR := "Erro ao criar história"
  const UPDATE_ERROR := "Erro ao atualizar história"
  const DELETE_ERROR := "Erro ao deletar história"

  /**
   * Stands for the message of the `SyntaxError` that `JSON.parse` throws on
   * malformed tag text; its wording belongs to the JavaScript engine.
   */
  const TAGS_SYNTAX_ERROR := "SyntaxError"

  /** A story whose tags are already a list. */
  predicate Normalised(s: Story) {
    s.tags.TagsList?
  }

  /**
   * `{ ...story, tags: typeof tags === 'string' ? JSON.parse(tags) : tags || [] }`;
   * None when the tag text does not parse.
   */
  function NormaliseStory(s: Story): (r: Option<Story>)
    ensures r.Some? ==> Normalised(r.value) && r.value.(tags := s.tags) == s
    ensures r.None? <==> s.tags.TagsText? && TagsJson.Decode(s.tags.text).None?
    ensures s.tags.TagsText? && r.Some? ==> r.value.tags == TagsList(TagsJson.Decode(s.tags.text).value)
    ensures s.tags.TagsList? ==> r == Some(s)
    ensures s.tags.NoTags? ==> r == Some(s.(tags := TagsList([])))
  {
    match s.tags
    case TagsText(text) =>
      (match TagsJson.Decode(text)
       case Some(list) => Some(s.(tags := TagsList(list)))
       case None => None)
    case TagsList(_) => Some(s)
    case NoTags => Some(s.(tags := TagsList([])))
  }

  /** A story already holding a list is left as it is. */
  lemma NormaliseFixesNormalised(s: Story)
    requires Normalised(s)
    ensures NormaliseStory(s) == Some(s)
  {
  }

  /** Normalising a second time changes nothing. */
  lemma NormaliseIdempotent(s: Story)
    requires NormaliseStory(s).Some?
    ensures NormaliseStory(NormaliseStory(s).value) == NormaliseStory(s)
  {
    NormaliseFixesNormalised(NormaliseStory(s).value);
  }

  /** The tag text the server writes for a list is read back as that list. */
  lemma NormaliseStoredTags(s: Story, tags: seq<string>)
    ensures NormaliseStory(s.(tags := TagsText(TagsJson.Encode(tags)))) == Some(s.(tags := TagsList(tags)))
  {
    TagsJson.RoundTrip(tags);
  }

  /** `data.map(normalise)`; None when any story's tags fail to parse (the whole map throws). */
  function NormaliseAll(ss: seq<Story>): (r: Option<seq<Story>>)
    ensures r.Some? <==> forall i :: 0 <= i < |ss| ==> NormaliseStory(ss[i]).Some?
    ensures r.Some? ==> |r.value| == |ss| && forall i :: 0 <= i < |ss| ==> r.value[i] == NormaliseStory(ss[i]).value
    decreases |ss|
  {
    if ss == [] then Some([])
    else
      match NormaliseStory(ss[0])
      case None => None
      case Some(s) =>
        match NormaliseAll(ss[1..])
        case None => None
        case Some(rest) => Some([s] + rest)
  }

  /** A cached list of normalised stories passes through normalisation unchanged. */
  lemma {:induction false} NormaliseAllFixes(ss: seq<Story>)
    requires forall i :: 0 <= i < |ss| ==> Normalised(ss[i])
    ensures NormaliseAll(ss) == Some(ss)
  {
    var r := NormaliseAll(ss);
    assert r.Some?;
    assert |r.value| == |ss|;
    forall i | 0 <= i < |ss| ensures r.value[i] == ss[i] {
      NormaliseFixesNormalised(ss[i]);
    }
    assert r.value == ss;
  }

  /** The "recent" order: `a` may come before `b` when it is not older. */
  predicate NewerOrSame(a: Story, b: Story) {
    a.createdAt >= b.createdAt
  }

  lemma NewerOrSameIsPreorder()
    ensures Seqs.TotalPreorder(NewerOrSame)
  {
  }

  /** `getFilteredStories()` for the given cache and view. */
  function FilteredStories(stories: seq<Story>, filter: StoryFilter): (r: seq<Story>)
    ensures filter == AllStories ==> r == stories
    ensures filter == FeaturedStories ==>
      && Seqs.IsSubseq(r, stories)
      && (forall x :: multiset(r)[x] == if x.featured then multiset(stories)[x] else 0)
    ensures filter == RecentStories ==>
      && multiset(r) == multiset(stories)
      && Seqs.SortedBy(r, NewerOrSame)
  {
    match filter
    case FeaturedStories => Seqs.Filter((s: Story) => s.featured, stories)
    case RecentStories =>
      NewerOrSameIsPreorder();
      Seqs.SortBy(stories, NewerOrSame)
    case AllStories => stories
  }

  /** The "recent" view has the same length as the cache and holds exactly its stories. */
  lemma RecentIsPermutation(stories: seq<Story>)
    ensures |FilteredStories(stories, RecentStories)| == |stories|
    ensures forall x :: x in FilteredStories(stories, RecentStories) <==> x in stories
  {
    var r := FilteredStories(stories, RecentStories);
    assert forall x :: x in r <==> x in multiset(r);
    assert forall x :: x in stories <==> x in multiset(stories);
    assert |multiset(r)| == |multiset(stories)|;
  }

  /** The query string `fetchStories` sends. */
  function StoriesQuery(featured: bool, search: Option<string>): (q: Query)
    ensures Get(q, "featured") == if featured then Some("true") else None
    ensures Get(q, "search") == if search.Some? && search.value != "" then search else None
  {
    var f: Query := if featured then [("featured", "true")] else [];
    var s: Query := if search.Some? && search.value != "" then [("search", search.value)] else [];
    if featured && s != [] then GetOtherKey([], "featured", "true", "search"); f + s
    else f + s
  }

  /** The message the store records when an awaited reply does not yield a usable story. */
  function FailureMessage<T>(reply: Reply<T>, notOk: string): string {
    match reply
    case Ok(_) => TAGS_SYNTAX_ERROR
    case NotOk => notOk
    case Thrown(m) => m
  }

  function StoryId(s: Story): string { s.id }

  /** `fetchStoryById`: the normalised story, or null; the cache is not touched. */
  function FetchStoryById(reply: Reply<Story>): (r: Option<Story>)
    ensures r.Some? <==> reply.Ok? && NormaliseStory(reply.payload).Some?
    ensures r.Some? ==> Normalised(r.value) && r.value.(tags := reply.payload.tags) == reply.payload
  {
    if reply.Ok? then NormaliseStory(reply.payload) else None
  }

  class Store {
    var stories: seq<Story>
    var isLoading: bool
    var error: Option<string>
    var filter: StoryFilter

    constructor()
      ensures stories == [] && !isLoading && error == None && filter == AllStories
    {
      stories := [];
      isLoading := false;
      error := None;
      filter := AllStories;
    }

    method SetFilter(f: StoryFilter)
      modifies this`filter
      ensures filter == f
    {
      filter := f;
    }

    function GetFilteredStories(): seq<Story>
      reads this
    {
      FilteredStories(stories, filter)
    }

    /** Replaces the whole cache on success; keeps it and records the error otherwise. */
    method FetchStories(featured: bool, search: Option<string>, reply: Reply<seq<Story>>) returns (query: Query)
      modifies this`stories, this`isLoading, this`error
      ensures query == StoriesQuery(featured, search)
      ensures !isLoading
      ensures reply.Ok? && NormaliseAll(reply.payload).Some? ==>
        stories == NormaliseAll(reply.payload).value && error == None
      ensures !(reply.Ok? && NormaliseAll(reply.payload).Some?) ==>
        stories == old(stories) && error == Some(FailureMessage(reply, FETCH_ERROR))
    {
      isLoading, error := true, None;
      query := StoriesQuery(featured, search);
      var parsed := if reply.Ok? then NormaliseAll(reply.payload) else None;
      if parsed.Some? {
        stories := parsed.value;
        isLoading := false;
      } else {
        error := Some(FailureMessage(reply, FETCH_ERROR));
        isLoading := false;
      }
    }

    /** Prepends the created story on success. */
    method CreateStory(reply: Reply<Story>) returns (r: Option<Story>)
      modifies this`stories, this`isLoading, this`error
      ensures !isLoading
      ensures r == FetchStoryById(reply)
      ensures r.Some? ==> stories == [r.value] + old(stories) && error == None
      ensures r.None? ==> stories == old(stories) && error == Some(FailureMessage(reply, CREATE_ERROR))
    {
      isLoading, error := true, None;
      r := FetchStoryById(reply);
      if r.Some? {
        stories := [r.value] + stories;
        isLoading := false;
      } else {
        error := Some(FailureMessage(reply, CREATE_ERROR));
        isLoading := false;
      }
    }

    /** Replaces every cached story with that id on success. */
    method UpdateStory(id: string, reply: Reply<Story>) returns (r: Option<Story>)
      modifies this`stories, this`isLoading, this`error
      ensures !isLoading
      ensures r == FetchStoryById(reply)
      ensures r.Some? ==> stories == Seqs.ReplaceKey(old(stories), StoryId, id, r.value) && error == None
      ensures r.None? ==> stories == old(stories) && error == Some(FailureMessage(reply, UPDATE_ERROR))
    {
      isLoading, error := true, None;
      r := FetchStoryById(reply);
      if r.Some? {
        stories := Seqs.ReplaceKey(stories, StoryId, id, r.value);
        isLoading := false;
      } else {
        error := Some(FailureMessage(reply, UPDATE_ERROR));
        isLoading := false;
      }
    }

    /** Drops every cached story with that id on success. */
    method DeleteStory(id: string, reply: Reply<()>) returns (deleted: bool)
      modifies this`stories, this`isLoading, this`error
      ensures !isLoading
      ensures deleted <==> reply.Ok?
      ensures deleted ==> stories == Seqs.WithoutKey(old(stories), StoryId, id) && error == None
      ensures !deleted ==> stories == old(stories) && error == Some(FailureMessage(reply, DELETE_ERROR))
    {
      isLoading, error := true, None;
      if reply.Ok? {
        stories := Seqs.WithoutKey(stories, StoryId, id);
        isLoading := false;
        deleted := true;
      } else {
        error := Some(FailureMessage(reply, DELETE_ERROR));
        isLoading := false;
        deleted := false;
      }
    }
  }
}
