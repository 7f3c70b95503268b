/**
 * The client's event cache: the cached events and a loading flag. Failures
 * are logged and swallowed, so no error is kept; a failed operation leaves
 * the cache as it was. Also the derived "upcoming" view.
 */
module EventStore {
  import opened Wrappers
  import opened Types
  import opened Http
  import Seqs

  function EventId(e: Event): string { e.id }

  /** The query string `fetchEvents` sends. */
  function EventsQuery(status: Option<EventStatus>, upcoming: bool): (q: Query)
    ensures Get(q, "status") == if status.Some? then Some(StatusName(status.value)) else None
    ensures Get(q, "upcoming") == if upcoming then Some("true") else None
  {
    var s: Query := if status.Some? then [("status", StatusName(status.value))] else [];
    var u: Query := if upcoming then [("upcoming", "true")] else [];
    if status.Some? && upcoming then
      GetOtherKey([], "status", StatusName(status.value), "upcoming");
      GetOtherKey([], "upcoming", "true", "status");
      s + u
    else s + u
  }

  /** Eligible for the upcoming view: not in the past, and upcoming or ongoing. */
  predicate IsUpcoming(e: Event, now: int) {
    e.date >= now && (e.status == Upcoming || e.status == Ongoing)
  }

  predicate EarlierOrSame(a: Event, b: Event) {
    a.date <= b.date
  }

  lemma EarlierOrSameIsPreorder()
    ensures Seqs.TotalPreorder(EarlierOrSame)
  {
  }

  /** The eligible events, earliest first (ties in cache order). */
  function UpcomingSorted(events: seq<Event>, now: int): (r: seq<Event>)
    ensures Seqs.SortedBy(r, EarlierOrSame)
    ensures forall e :: multiset(r)[e] == if IsUpcoming(e, now) then multiset(events)[e] else 0
  {
    EarlierOrSameIsPreorder();
    Seqs.SortBy(Seqs.Filter((e: Event) => IsUpcoming(e, now), events), EarlierOrSame)
  }

  /** `getUpcomingEvents()`: the first five of the eligible events by date. */
  function UpcomingEvents(events: seq<Event>, now: int): (r: seq<Event>)
    ensures |r| <= 5
    ensures forall i :: 0 <= i < |r| ==> IsUpcoming(r[i], now) && r[i] in events
    ensures Seqs.SortedBy(r, EarlierOrSame)
    ensures var u := UpcomingSorted(events, now); r == u[..Seqs.Min(5, |u|)]
    ensures multiset(r) <= multiset(UpcomingSorted(events, now))
  {
    var sorted := UpcomingSorted(events, now);
    UpcomingPrefix(events, now, Seqs.Min(5, |sorted|));
    Seqs.SliceTo(sorted, 5)
  }

  /** Any front part of the sorted eligible events is sorted and made of eligible cached events. */
  lemma UpcomingPrefix(events: seq<Event>, now: int, n: nat)
    requires n <= |UpcomingSorted(events, now)|
    ensures var p := UpcomingSorted(events, now)[..n];
      && (forall i :: 0 <= i < |p| ==> IsUpcoming(p[i], now) && p[i] in events)
      && Seqs.SortedBy(p, EarlierOrSame)
      && multiset(p) <= multiset(UpcomingSorted(events, now))
  {
    var sorted := UpcomingSorted(events, now);
    var p := sorted[..n];
    Seqs.PrefixMultiset(sorted, n);
    forall i | 0 <= i < |p| ensures IsUpcoming(p[i], now) && p[i] in events {
      assert p[i] == sorted[i] && sorted[i] in multiset(sorted);
    }
  }

  /**
   * Nothing eligible is passed over for a later one: an eligible event that
   * is not shown only misses out because five events no later than it are.
   */
  lemma UpcomingEventsEarliest(events: seq<Event>, now: int, e: Event)
    requires e in events && IsUpcoming(e, now)
    requires e !in UpcomingEvents(events, now)
    ensures |UpcomingEvents(events, now)| == 5
    ensures forall i :: 0 <= i < 5 ==> UpcomingEvents(events, now)[i].date <= e.date
  {
    var sorted := UpcomingSorted(events, now);
    var r := UpcomingEvents(events, now);
    assert multiset(sorted)[e] > 0;
    assert e in sorted;
    var k :| 0 <= k < |sorted| && sorted[k] == e;
    assert k >= |r|;
    forall i | 0 <= i < 5 ensures r[i].date <= e.date {
      assert r[i] == sorted[i];
      assert EarlierOrSame(sorted[i], sorted[k]);
    }
  }

  /** With five or fewer eligible events, the view shows all of them. */
  lemma UpcomingEventsAllWhenFew(events: seq<Event>, now: int)
    requires |Seqs.Filter((e: Event) => IsUpcoming(e, now), events)| <= 5
    ensures multiset(UpcomingEvents(events, now)) == multiset(UpcomingSorted(events, now))
  {
    var f := Seqs.Filter((e: Event) => IsUpcoming(e, now), events);
    var sorted := UpcomingSorted(events, now);
    assert multiset(sorted) == multiset(Seqs.SortBy(f, EarlierOrSame));
    assert |sorted| == |multiset(sorted)| == |f|;
    assert UpcomingEvents(events, now) == sorted[..|sorted|] == sorted;
  }

  class Store {
    var events: seq<Event>
    var isLoading: bool

    constructor()
      ensures events == [] && !isLoading
    {
      events := [];
      isLoading := false;
    }

    function GetUpcomingEvents(now: int): seq<Event>
      reads this
    {
      UpcomingEvents(events, now)
    }

    /** Replaces the cache only on an ok reply. */
    method FetchEvents(status: Option<EventStatus>, upcoming: bool, reply: Reply<seq<Event>>) returns (query: Query)
      modifies this
      ensures query == EventsQuery(status, upcoming)
      ensures !isLoading
      ensures events == if reply.Ok? then reply.payload else old(events)
    {
      isLoading := true;
      query := EventsQuery(status, upcoming);
      if reply.Ok? {
        events := reply.payload;
      }
      isLoading := false;
    }

    /** Appends the created event on an ok reply. */
    method CreateEvent(reply: Reply<Event>) returns (r: Option<Event>)
      modifies this`events
      ensures r == if reply.Ok? then Some(reply.payload) else None
      ensures events == if reply.Ok? then old(events) + [reply.payload] else old(events)
    {
      if reply.Ok? {
        events := events + [reply.payload];
        r := Some(reply.payload);
      } else {
        r := None;
      }
    }

    /** Replaces the cached events with that id on an ok reply. */
    method UpdateEvent(id: string, reply: Reply<Event>) returns (r: Option<Event>)
      modifies this`events
      ensures r == if reply.Ok? then Some(reply.payload) else None
      ensures events == if reply.Ok? then Seqs.ReplaceKey(old(events), EventId, id, reply.payload) else old(events)
    {
      if reply.Ok? {
        events := Seqs.ReplaceKey(events, EventId, id, reply.payload);
        r := Some(reply.payload);
      } else {
        r := None;
      }
    }

    /** Drops the cached events with that id on an ok reply. */
    method DeleteEvent(id: string, reply: Reply<()>) returns (deleted: bool)
      modifies this`events
      ensures deleted <==> reply.Ok?
      ensures events == if deleted then Seqs.WithoutKey(old(events), EventId, id) else old(events)
    {
      if reply.Ok? {
        events := Seqs.WithoutKey(events, EventId, id);
        deleted := true;
      } else {
        deleted := false;
      }
    }
  }
}
