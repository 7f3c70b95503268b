/**
 * What the three list pages derive from the stores: the story page's
 * search over the store's current view, the event page's status tabs,
 * and the front page's three featured stories.
 */
module Pages {
  import opened Wrappers
  import opened Types
  import Seqs
  import Text
  import StoryStore
  import EventStore
  import Http

  const SINGULAR_LABEL := "mamacada encontrada"
  const PLURAL_LABEL := "mamacadas encontradas"
  const FEATURED_ON_HOME := 3

  /** Case-insensitive match of the search text against a story's title, content or author. */
  predicate SearchMatches(s: Story, query: string) {
    || Text.Contains(Text.Lower(s.title), Text.Lower(query))
    || Text.Contains(Text.Lower(s.content), Text.Lower(query))
    || Text.Contains(Text.Lower(s.author), Text.Lower(query))
  }

  /** The story page's list: the store's filtered view narrowed by the search box. */
  function ShownStories(stories: seq<Story>, filter: StoryFilter, query: string): (r: seq<Story>)
    ensures Seqs.IsSubseq(r, StoryStore.FilteredStories(stories, filter))
    ensures forall s :: s in r <==> s in StoryStore.FilteredStories(stories, filter) && SearchMatches(s, query)
    ensures forall s :: multiset(r)[s] == if SearchMatches(s, query) then multiset(StoryStore.FilteredStories(stories, filter))[s] else 0
  {
    Seqs.Filter((s: Story) => SearchMatches(s, query), StoryStore.FilteredStories(stories, filter))
  }

  /** An empty search box shows the store's view unchanged. */
  lemma EmptySearchShowsView(stories: seq<Story>, filter: StoryFilter)
    ensures ShownStories(stories, filter, "") == StoryStore.FilteredStories(stories, filter)
  {
    var view := StoryStore.FilteredStories(stories, filter);
    forall i | 0 <= i < |view|
      ensures SearchMatches(view[i], "")
    {
      Text.ContainsEmpty(Text.Lower(view[i].title));
    }
    Seqs.FilterAll((s: Story) => SearchMatches(s, ""), view);
  }

  /** The search ignores case, wherever the upper case letters are. */
  lemma SearchIgnoresCase(s: Story, query: string)
    ensures SearchMatches(s, Text.Lower(query)) == SearchMatches(s, query)
  {
    Text.LowerIdempotent(query);
  }

  /** The count line under the search box. */
  function CountLabel(n: nat): (caption: string)
    ensures caption == SINGULAR_LABEL <==> n == 1
    ensures caption == PLURAL_LABEL <==> n != 1
  {
    if n == 1 then SINGULAR_LABEL else PLURAL_LABEL
  }

  /** The event page's status tab. */
  datatype StatusTab = AllTab | StatusOnly(status: EventStatus)

  const INITIAL_TAB: StatusTab := AllTab

  /** The events listed under a tab. */
  function ShownEvents(events: seq<Event>, tab: StatusTab): (r: seq<Event>)
    ensures tab == AllTab ==> r == events
    ensures tab.StatusOnly? ==> Seqs.IsSubseq(r, events)
    ensures tab.StatusOnly? ==> forall e :: e in r <==> e in events && e.status == tab.status
    ensures tab.StatusOnly? ==> forall e :: multiset(r)[e] == if e.status == tab.status then multiset(events)[e] else 0
  {
    match tab
    case AllTab => events
    case StatusOnly(st) => Seqs.Filter((e: Event) => e.status == st, events)
  }

  /** The page opens on every cached event, after a fetch that sends no filter. */
  lemma PageOpensOnAll(events: seq<Event>)
    ensures ShownEvents(events, INITIAL_TAB) == events
    ensures Http.Get(EventStore.EventsQuery(None, false), "status") == None
    ensures Http.Get(EventStore.EventsQuery(None, false), "upcoming") == None
  {
  }

  /** The status tabs split the cached events: every event is under exactly one of them. */
  lemma TabsPartition(events: seq<Event>, e: Event)
    requires e in events
    ensures e in ShownEvents(events, StatusOnly(e.status))
    ensures forall st :: st != e.status ==> e !in ShownEvents(events, StatusOnly(st))
  {
  }

  /** The front page's stories: the first three featured ones, in store order. */
  function FeaturedOnHome(stories: seq<Story>): (r: seq<Story>)
    ensures |r| <= FEATURED_ON_HOME
    ensures forall i :: 0 <= i < |r| ==> r[i].featured && r[i] in stories
    ensures var featured := Seqs.Filter((s: Story) => s.featured, stories);
      r == featured[..Seqs.Min(FEATURED_ON_HOME, |featured|)]
  {
    Seqs.SliceTo(Seqs.Filter((s: Story) => s.featured, stories), FEATURED_ON_HOME)
  }

  /** With three featured stories or fewer, all of them are shown. */
  lemma FewFeaturedAllShown(stories: seq<Story>)
    requires |Seqs.Filter((s: Story) => s.featured, stories)| <= FEATURED_ON_HOME
    ensures FeaturedOnHome(stories) == Seqs.Filter((s: Story) => s.featured, stories)
  {
    var featured := Seqs.Filter((s: Story) => s.featured, stories);
    assert featured[..|featured|] == featured;
  }
}
