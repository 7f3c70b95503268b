/**
 * `/api/events`: GET lists the events a query selects, earliest first, each
 * with a summary of its stories and their count; POST inserts one event.
 * `now` is the server's clock and `parseDate` stands for `new Date(text)`,
 * None where that gives an invalid date.
 */
module EventsRoute {
  import opened Wrappers
  import opened Http
  import opened Database
  import opened Payloads
  import Seqs
  import Types
  import EventStore

  const LIST_ERROR := "Erro ao buscar eventos"
  const CREATE_ERROR := "Erro ao criar evento"

  /**
   * The `where` clause: `upcoming=true` asks for events not in the past whose
   * status is upcoming or ongoing, and replaces any status condition;
   * otherwise a non-empty `status` asks for that exact status.
   */
  predicate Matches(e: EventRow, q: Query, now: int) {
    var status := Get(q, "status");
    if Get(q, "upcoming") == Some("true") then e.date >= now && (e.status == "upcoming" || e.status == "ongoing")
    else if status.Some? && status.value != "" then e.status == status.value
    else true
  }

  /** A status on its own selects exactly that status. */
  lemma StatusAlone(e: EventRow, q: Query, now: int)
    requires Get(q, "upcoming") != Some("true")
    requires Get(q, "status").Some? && Get(q, "status").value != ""
    ensures Matches(e, q, now) <==> e.status == Get(q, "status").value
  {
  }

  /** With `upcoming=true` the status parameter has no effect. */
  lemma UpcomingOverridesStatus(e: EventRow, q: Query, s: string, now: int)
    requires Get(q, "upcoming") == Some("true")
    ensures Matches(e, [("status", s)] + q, now) <==> Matches(e, q, now)
  {
    GetOtherKey(q, "status", s, "upcoming");
  }

  /** The parameters the client's `fetchEvents` sends select what it asks for. */
  lemma ClientQuery(e: EventRow, status: Option<Types.EventStatus>, upcoming: bool, now: int)
    ensures Matches(e, EventStore.EventsQuery(status, upcoming), now) <==>
      if upcoming then e.date >= now && (e.status == "upcoming" || e.status == "ongoing")
      else if status.Some? then e.status == Types.StatusName(status.value)
      else true
  {
    var q := EventStore.EventsQuery(status, upcoming);
    if status.Some? {
      assert Types.StatusName(status.value) != "";
    }
  }

  predicate EarlierOrSame(a: EventRow, b: EventRow) {
    a.date <= b.date
  }

  lemma EarlierOrSameIsPreorder()
    ensures Seqs.TotalPreorder(EarlierOrSame)
  {
  }

  datatype StorySummary = StorySummary(id: string, title: string, coverImage: Option<string>)

  /** An event as listed: the row, its stories' `{ id, title, coverImage }` and `_count.stories`. */
  datatype EventListing = EventListing(event: EventRow, stories: seq<StorySummary>, storyCount: int)

  function Summary(s: StoryRow): StorySummary {
    StorySummary(s.id, s.title, s.coverImage)
  }

  /** The stories attached to event `id`, in table order, each as often as in the table. */
  function AttachedTo(stories: seq<StoryRow>, id: string): (r: seq<StoryRow>)
    ensures forall s :: multiset(r)[s] == if s.eventId == Some(id) then multiset(stories)[s] else 0
    ensures Seqs.IsSubseq(r, stories)
  {
    Seqs.Filter((s: StoryRow) => s.eventId == Some(id), stories)
  }

  lemma AttachedMembers(stories: seq<StoryRow>, id: string)
    ensures |AttachedTo(stories, id)| <= |stories|
    ensures forall s :: s in AttachedTo(stories, id) <==> s in stories && s.eventId == Some(id)
  {
    var attached := AttachedTo(stories, id);
    assert |multiset(attached)| <= |multiset(stories)| by {
      assert multiset(attached) <= multiset(stories);
    }
    forall s ensures s in attached <==> s in stories && s.eventId == Some(id) {
      assert s in attached <==> multiset(attached)[s] > 0;
      assert s in stories <==> multiset(stories)[s] > 0;
    }
  }

  /** The summaries of the stories attached to event `id`, one per attached story, in table order. */
  function StoriesOf(stories: seq<StoryRow>, id: string): (r: seq<StorySummary>)
    ensures |r| == |AttachedTo(stories, id)| <= |stories|
    ensures forall i :: 0 <= i < |r| ==> r[i] == Summary(AttachedTo(stories, id)[i])
    ensures forall x :: x in r <==> exists s :: s in stories && s.eventId == Some(id) && Summary(s) == x
  {
    var attached := AttachedTo(stories, id);
    var r := seq(|attached|, i requires 0 <= i < |attached| => Summary(attached[i]));
    AttachedMembers(stories, id);
    SummaryMembers(attached, r);
    r
  }

  /** The summaries of a list of rows are the summaries of its members. */
  lemma SummaryMembers(rows: seq<StoryRow>, r: seq<StorySummary>)
    requires |r| == |rows| && forall i :: 0 <= i < |r| ==> r[i] == Summary(rows[i])
    ensures forall x :: x in r <==> exists s :: s in rows && Summary(s) == x
  {
    forall x | x in r ensures exists s :: s in rows && Summary(s) == x {
      var i :| 0 <= i < |r| && r[i] == x;
      assert rows[i] in rows;
    }
    forall s | s in rows ensures Summary(s) in r {
      var i :| 0 <= i < |rows| && rows[i] == s;
      assert r[i] == Summary(s);
    }
  }

  function Listing(e: EventRow, stories: seq<StoryRow>): (l: EventListing)
    ensures l.event == e && l.storyCount == |l.stories|
  {
    var ss := StoriesOf(stories, e.id);
    EventListing(e, ss, |ss|)
  }

  function Rows(ls: seq<EventListing>): (r: seq<EventRow>)
    ensures |r| == |ls| && forall i :: 0 <= i < |ls| ==> r[i] == ls[i].event
  {
    seq(|ls|, i requires 0 <= i < |ls| => ls[i].event)
  }

  /** The rows GET selects, earliest first. */
  function SelectedRows(events: seq<EventRow>, q: Query, now: int): (r: seq<EventRow>)
    ensures Seqs.SortedBy(r, EarlierOrSame)
    ensures forall e :: multiset(r)[e] == if Matches(e, q, now) then multiset(events)[e] else 0
  {
    EarlierOrSameIsPreorder();
    Seqs.SortBy(Seqs.Filter((e: EventRow) => Matches(e, q, now), events), EarlierOrSame)
  }

  /** The body of a successful GET. */
  function ListEvents(events: seq<EventRow>, stories: seq<StoryRow>, q: Query, now: int): (r: seq<EventListing>)
    ensures Rows(r) == SelectedRows(events, q, now)
    ensures forall i :: 0 <= i < |r| ==> r[i].stories == StoriesOf(stories, r[i].event.id) && r[i].storyCount == |r[i].stories|
  {
    var rows := SelectedRows(events, q, now);
    var r := seq(|rows|, i requires 0 <= i < |rows| => Listing(rows[i], stories));
    assert Rows(r) == rows;
    r
  }

  /** Without parameters every event is listed. */
  lemma NoParametersListsAll(events: seq<EventRow>, stories: seq<StoryRow>, now: int)
    ensures multiset(Rows(ListEvents(events, stories, [], now))) == multiset(events)
  {
    var r := Rows(ListEvents(events, stories, [], now));
    assert forall e :: Matches(e, [], now);
    assert forall e :: multiset(r)[e] == multiset(events)[e];
  }

  method HandleGet(db: Db, q: Query, now: int, fault: bool) returns (resp: Response<seq<EventListing>>)
    ensures resp == if fault then ServerError(LIST_ERROR) else Ok200(ListEvents(db.events, db.stories, q, now))
  {
    if fault {
      return ServerError(LIST_ERROR);
    }
    resp := Ok200(ListEvents(db.events, db.stories, q, now));
  }

  /** `status || 'upcoming'`. */
  function StatusOrDefault(status: Option<string>): (s: string)
    ensures s == "upcoming" <==> status.None? || status.value == "" || status.value == "upcoming"
    ensures status.Some? && status.value != "" ==> s == status.value
  {
    if status.Some? && status.value != "" then status.value else "upcoming"
  }

  /**
   * The row `create` inserts: title, description, location, date, cover
   * image, author name and status from the body; None when a required
   * field is missing or the date is invalid.
   */
  function NewEventRow(body: EventBody, id: string, now: int, parseDate: string -> Option<int>): (r: Option<EventRow>)
    ensures r.Some? <==> body.title.Some? && body.createdBy.Some? && body.date.Some? && parseDate(body.date.value).Some?
    ensures r.Some? ==>
      && r.value.id == id
      && r.value.title == body.title.value
      && r.value.description == body.description
      && r.value.location == body.location
      && r.value.date == parseDate(body.date.value).value
      && r.value.coverImage == body.coverImage
      && r.value.createdBy == body.createdBy.value
      && r.value.status == StatusOrDefault(body.status)
      && r.value.participantIds == [] && r.value.creatorId == None
      && r.value.createdAt == now && r.value.updatedAt == now
  {
    if body.title.None? || body.createdBy.None? || body.date.None? then None
    else
      match parseDate(body.date.value)
      case None => None
      case Some(date) =>
        Some(EventRow(id, body.title.value, body.description, body.location, date, body.coverImage,
                      body.createdBy.value, None, [], StatusOrDefault(body.status), now, now))
  }

  /** Participants and media in the body are not stored. */
  lemma CreateIgnoresExtras(body: EventBody, ps: Option<seq<string>>, ms: Option<seq<MediaInput>>,
                            id: string, now: int, parseDate: string -> Option<int>)
    ensures NewEventRow(body.(participantIds := ps, media := ms), id, now, parseDate) == NewEventRow(body, id, now, parseDate)
  {
  }

  predicate IdTaken(events: seq<EventRow>, id: string) {
    exists i :: 0 <= i < |events| && events[i].id == id
  }

  /** POST: insert the new row at the end of the table; `id` is the id the database assigns. */
  method HandlePost(db: Db, body: Option<EventBody>, id: string, now: int, parseDate: string -> Option<int>, fault: bool)
    returns (resp: Response<EventRow>)
    modifies db`events
    ensures var row := if body.Some? then NewEventRow(body.value, id, now, parseDate) else None;
      if row.Some? && !fault && !IdTaken(old(db.events), id) then
        db.events == old(db.events) + [row.value] && resp == Created(row.value)
      else
        db.events == old(db.events) && resp == ServerError(CREATE_ERROR)
  {
    var row := if body.Some? then NewEventRow(body.value, id, now, parseDate) else None;
    if row.None? || fault || IdTaken(db.events, id) {
      return ServerError(CREATE_ERROR);
    }
    db.events := db.events + [row.value];
    resp := Created(row.value);
  }
}
