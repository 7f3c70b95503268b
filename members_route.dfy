/**
 * `/api/members`: GET lists every member by nickname with four relation
 * counts; POST inserts a member. Nicknames (and ids) are unique keys: a
 * clash is the database's unique-constraint error P2002, which the route
 * reports as a 400.
 */
module MembersRoute {
  import opened Wrappers
  import opened Http
  import opened Database
  import opened Payloads
  import Seqs
  import Text

  const LIST_ERROR := "Erro ao buscar membros"
  const CREATE_ERROR := "Erro ao criar membro"
  const DUPLICATE_ERROR := "Ja existe um membro com esse apelido"

  /** `orderBy: { nickname: 'asc' }`. */
  predicate NicknameLe(a: MemberRow, b: MemberRow) {
    Text.LexLe(a.nickname, b.nickname)
  }

  lemma NicknameLeIsPreorder()
    ensures Seqs.TotalPreorder(NicknameLe)
  {
    forall a: MemberRow, b: MemberRow ensures NicknameLe(a, b) || NicknameLe(b, a) {
      Text.LexLeTotal(a.nickname, b.nickname);
    }
    forall a: MemberRow, b: MemberRow, c: MemberRow | NicknameLe(a, b) && NicknameLe(b, c)
      ensures NicknameLe(a, c)
    {
      Text.LexLeTransitive(a.nickname, b.nickname, c.nickname);
    }
  }

  datatype MemberCounts = MemberCounts(storiesAuthored: nat, storiesIn: nat, eventsCreated: nat, eventsIn: nat)

  datatype MemberListing = MemberListing(member: MemberRow, counts: MemberCounts)

  /** The four ways a row links a member, named so that every use is the same test. */
  function WrittenBy(id: string): StoryRow -> bool { (s: StoryRow) => s.authorId == Some(id) }
  function StarsIn(id: string): StoryRow -> bool { (s: StoryRow) => id in s.participantIds }
  function CreatedBy(id: string): EventRow -> bool { (e: EventRow) => e.creatorId == Some(id) }
  function TakesPart(id: string): EventRow -> bool { (e: EventRow) => id in e.participantIds }

  /**
   * `_count`: stories written by, stories with, events created by and events
   * with the member, each the number of rows linking it that way (counting is
   * pinned down by `Seqs.CountWhereSingle` and `Seqs.CountWhereConcat`).
   */
  function Counts(id: string, stories: seq<StoryRow>, events: seq<EventRow>): (c: MemberCounts)
    ensures c.storiesAuthored == Seqs.CountWhere(WrittenBy(id), stories)
    ensures c.storiesIn == Seqs.CountWhere(StarsIn(id), stories)
    ensures c.eventsCreated == Seqs.CountWhere(CreatedBy(id), events)
    ensures c.eventsIn == Seqs.CountWhere(TakesPart(id), events)
    ensures c.storiesAuthored <= |stories| && c.storiesIn <= |stories|
    ensures c.eventsCreated <= |events| && c.eventsIn <= |events|
    ensures c.storiesAuthored == 0 <==> forall i :: 0 <= i < |stories| ==> stories[i].authorId != Some(id)
    ensures c.storiesIn == 0 <==> forall i :: 0 <= i < |stories| ==> id !in stories[i].participantIds
    ensures c.eventsCreated == 0 <==> forall i :: 0 <= i < |events| ==> events[i].creatorId != Some(id)
    ensures c.eventsIn == 0 <==> forall i :: 0 <= i < |events| ==> id !in events[i].participantIds
  {
    MemberCounts(
      Seqs.CountWhere(WrittenBy(id), stories),
      Seqs.CountWhere(StarsIn(id), stories),
      Seqs.CountWhere(CreatedBy(id), events),
      Seqs.CountWhere(TakesPart(id), events))
  }

  /** No rows, no counts. */
  lemma CountsOfEmpty(id: string)
    ensures Counts(id, [], []) == MemberCounts(0, 0, 0, 0)
  {
  }

  /**
   * One more story raises the member's story counts by one for each way it
   * links the member, and leaves the event counts alone.
   */
  lemma CountsAddStory(id: string, stories: seq<StoryRow>, events: seq<EventRow>, s: StoryRow)
    ensures var before, after := Counts(id, stories, events), Counts(id, stories + [s], events);
      && after.storiesAuthored == before.storiesAuthored + (if s.authorId == Some(id) then 1 else 0)
      && after.storiesIn == before.storiesIn + (if id in s.participantIds then 1 else 0)
      && after.eventsCreated == before.eventsCreated
      && after.eventsIn == before.eventsIn
  {
    Seqs.CountWhereConcat(WrittenBy(id), stories, [s]);
    Seqs.CountWhereSingle(WrittenBy(id), s);
    Seqs.CountWhereConcat(StarsIn(id), stories, [s]);
    Seqs.CountWhereSingle(StarsIn(id), s);
  }

  /**
   * One more event raises the member's event counts by one for each way it
   * links the member, and leaves the story counts alone.
   */
  lemma CountsAddEvent(id: string, stories: seq<StoryRow>, events: seq<EventRow>, e: EventRow)
    ensures var before, after := Counts(id, stories, events), Counts(id, stories, events + [e]);
      && after.eventsCreated == before.eventsCreated + (if e.creatorId == Some(id) then 1 else 0)
      && after.eventsIn == before.eventsIn + (if id in e.participantIds then 1 else 0)
      && after.storiesAuthored == before.storiesAuthored
      && after.storiesIn == before.storiesIn
  {
    Seqs.CountWhereConcat(CreatedBy(id), events, [e]);
    Seqs.CountWhereSingle(CreatedBy(id), e);
    Seqs.CountWhereConcat(TakesPart(id), events, [e]);
    Seqs.CountWhereSingle(TakesPart(id), e);
  }

  /** The members of a listing, in its order. */
  function MembersOf(ls: seq<MemberListing>): (r: seq<MemberRow>)
    ensures |r| == |ls| && forall i :: 0 <= i < |ls| ==> r[i] == ls[i].member
  {
    seq(|ls|, i requires 0 <= i < |ls| => ls[i].member)
  }

  /** Each member with its counts, in the given order. */
  function WithCounts(ms: seq<MemberRow>, stories: seq<StoryRow>, events: seq<EventRow>): (r: seq<MemberListing>)
    ensures MembersOf(r) == ms
    ensures forall i :: 0 <= i < |r| ==> r[i].counts == Counts(r[i].member.id, stories, events)
  {
    var r := seq(|ms|, i requires 0 <= i < |ms| => MemberListing(ms[i], Counts(ms[i].id, stories, events)));
    assert MembersOf(r) == ms;
    r
  }

  /** The body of a successful GET: every member, by nickname, with its counts. */
  function ListMembers(members: seq<MemberRow>, stories: seq<StoryRow>, events: seq<EventRow>): (r: seq<MemberListing>)
    ensures |r| == |members|
    ensures multiset(MembersOf(r)) == multiset(members)
    ensures Seqs.SortedBy(MembersOf(r), NicknameLe)
    ensures forall i :: 0 <= i < |r| ==> r[i].counts == Counts(r[i].member.id, stories, events)
  {
    NicknameLeIsPreorder();
    WithCounts(Seqs.SortBy(members, NicknameLe), stories, events)
  }

  method HandleGet(db: Db, fault: bool) returns (resp: Response<seq<MemberListing>>)
    ensures resp == if fault then ServerError(LIST_ERROR) else Ok200(ListMembers(db.members, db.stories, db.events))
  {
    if fault {
      return ServerError(LIST_ERROR);
    }
    resp := Ok200(ListMembers(db.members, db.stories, db.events));
  }

  /** The row `create` inserts from name, nickname, avatar, bio and role; None when name or nickname is missing. */
  function NewMemberRow(body: MemberBody, id: string, now: int): (r: Option<MemberRow>)
    ensures r.Some? <==> body.name.Some? && body.nickname.Some?
    ensures r.Some? ==>
      && r.value.id == id && r.value.joinedAt == now
      && r.value.name == body.name.value && r.value.nickname == body.nickname.value
      && r.value.avatar == body.avatar && r.value.bio == body.bio && r.value.role == body.role
  {
    if body.name.None? || body.nickname.None? then None
    else Some(MemberRow(id, body.name.value, body.nickname.value, body.avatar, body.bio, body.role, now))
  }

  /** Inserting `row` would break a unique key. */
  predicate Clashes(members: seq<MemberRow>, row: MemberRow) {
    exists i :: 0 <= i < |members| && (members[i].nickname == row.nickname || members[i].id == row.id)
  }

  predicate UniqueNicknames(members: seq<MemberRow>) {
    forall i, j :: 0 <= i < j < |members| ==> members[i].nickname != members[j].nickname
  }

  /** A row that clashes with nothing keeps nicknames unique. */
  lemma InsertKeepsUnique(members: seq<MemberRow>, row: MemberRow)
    requires UniqueNicknames(members) && !Clashes(members, row)
    ensures UniqueNicknames(members + [row])
  {
    var t := members + [row];
    forall i, j | 0 <= i < j < |t| ensures t[i].nickname != t[j].nickname {
      if j == |members| {
        assert t[i] == members[i];
        assert !(members[i].nickname == row.nickname || members[i].id == row.id);
      }
    }
  }

  /** POST: insert the member, or answer 400 on a unique-key clash and 500 on any other failure. */
  method HandlePost(db: Db, body: Option<MemberBody>, id: string, now: int, fault: bool)
    returns (resp: Response<MemberRow>)
    modifies db`members
    ensures var row := if body.Some? then NewMemberRow(body.value, id, now) else None;
      if row.None? || fault then
        db.members == old(db.members) && resp == ServerError(CREATE_ERROR)
      else if Clashes(old(db.members), row.value) then
        db.members == old(db.members) && resp == BadRequest(DUPLICATE_ERROR)
      else
        db.members == old(db.members) + [row.value] && resp == Created(row.value)
    ensures UniqueNicknames(old(db.members)) ==> UniqueNicknames(db.members)
  {
    var row := if body.Some? then NewMemberRow(body.value, id, now) else None;
    if row.None? || fault {
      return ServerError(CREATE_ERROR);
    }
    if Clashes(db.members, row.value) {
      return BadRequest(DUPLICATE_ERROR);
    }
    if UniqueNicknames(db.members) {
      InsertKeepsUnique(db.members, row.value);
    }
    db.members := db.members + [row.value];
    resp := Created(row.value);
  }
}
