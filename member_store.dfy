/**
 * The client's member cache: the cached members, a loading flag and the last
 * error. Only a failed fetch records an error; the other operations report
 * failure through their result and leave the cache as it was.
 */
module MemberStore {
  import opened Wrappers
  import opened Types
  import Seqs

  const FETCH_ERROR := "Erro ao buscar membros"

  function MemberId(m: Member): string { m.id }

  /**
   * The fields an update reply carries. An absent field is None; a field that
   * is present but `null` is `Some(None)`.
   */
  datatype MemberPatch = MemberPatch(
    id: Option<string>,
    name: Option<string>,
    nickname: Option<string>,
    avatar: Option<Option<string>>,
    bio: Option<Option<string>>,
    role: Option<Option<string>>,
    joinedAt: Option<int>)

  /** `{ ...m, ...patch }`: the fields the patch carries win, the others are kept. */
  function Merge(m: Member, p: MemberPatch): (r: Member)
    ensures p.id.None? ==> r.id == m.id
    ensures p.name.None? ==> r.name == m.name
    ensures p.nickname.None? ==> r.nickname == m.nickname
    ensures p.avatar.None? ==> r.avatar == m.avatar
    ensures p.bio.None? ==> r.bio == m.bio
    ensures p.role.None? ==> r.role == m.role
    ensures p.joinedAt.None? ==> r.joinedAt == m.joinedAt
    ensures p.id.Some? ==> r.id == p.id.value
    ensures p.name.Some? ==> r.name == p.name.value
    ensures p.nickname.Some? ==> r.nickname == p.nickname.value
    ensures p.avatar.Some? ==> r.avatar == p.avatar.value
    ensures p.bio.Some? ==> r.bio == p.bio.value
    ensures p.role.Some? ==> r.role == p.role.value
    ensures p.joinedAt.Some? ==> r.joinedAt == p.joinedAt.value
  {
    Member(
      p.id.GetOr(m.id),
      p.name.GetOr(m.name),
      p.nickname.GetOr(m.nickname),
      p.avatar.GetOr(m.avatar),
      p.bio.GetOr(m.bio),
      p.role.GetOr(m.role),
      p.joinedAt.GetOr(m.joinedAt))
  }

  /** The patch that carries every field of `m`. */
  function FullPatch(m: Member): MemberPatch {
    MemberPatch(Some(m.id), Some(m.name), Some(m.nickname), Some(m.avatar), Some(m.bio), Some(m.role), Some(m.joinedAt))
  }

  const EmptyPatch := MemberPatch(None, None, None, None, None, None, None)

  /** A reply carrying no fields changes nothing. */
  lemma MergeEmpty(m: Member)
    ensures Merge(m, EmptyPatch) == m
  {
  }

  /** A reply carrying the whole member replaces the cached one. */
  lemma MergeFull(m: Member, x: Member)
    ensures Merge(m, FullPatch(x)) == x
  {
  }

  /** Applying the same reply twice is applying it once. */
  lemma MergeIdempotent(m: Member, p: MemberPatch)
    ensures Merge(Merge(m, p), p) == Merge(m, p)
  {
  }

  /** The cache with every member carrying `id` merged with `p`. */
  function MergeWhere(ms: seq<Member>, id: string, p: MemberPatch): (r: seq<Member>)
    ensures |r| == |ms|
    ensures forall i :: 0 <= i < |ms| ==> r[i] == if ms[i].id == id then Merge(ms[i], p) else ms[i]
  {
    Seqs.MapWhere(ms, (m: Member) => m.id == id, (m: Member) => Merge(m, p))
  }

  /** `fetchMemberById`: the member of an ok reply, or null; the cache is not touched. */
  function FetchMemberById(reply: Reply<Member>): (r: Option<Member>)
    ensures r.Some? <==> reply.Ok?
    ensures r.Some? ==> r.value == reply.payload
  {
    if reply.Ok? then Some(reply.payload) else None
  }

  class Store {
    var members: seq<Member>
    var isLoading: bool
    var error: Option<string>

    constructor()
      ensures members == [] && !isLoading && error == None
    {
      members := [];
      isLoading := false;
      error := None;
    }

    /** Replaces the cache on an ok reply; otherwise keeps it and records the one fixed message. */
    method FetchMembers(reply: Reply<seq<Member>>)
      modifies this
      ensures !isLoading
      ensures reply.Ok? ==> members == reply.payload && error == None
      ensures !reply.Ok? ==> members == old(members) && error == Some(FETCH_ERROR)
    {
      isLoading, error := true, None;
      if reply.Ok? {
        members := reply.payload;
        isLoading := false;
      } else {
        error := Some(FETCH_ERROR);
        isLoading := false;
      }
    }

    /** Appends the created member on an ok reply. */
    method CreateMember(reply: Reply<Member>) returns (r: Option<Member>)
      modifies this`members
      ensures r == FetchMemberById(reply)
      ensures members == if reply.Ok? then old(members) + [reply.payload] else old(members)
    {
      r := FetchMemberById(reply);
      if reply.Ok? {
        members := members + [reply.payload];
      }
    }

    /** Merges the reply's fields into every cached member with that id. */
    method UpdateMember(id: string, reply: Reply<MemberPatch>) returns (updated: bool)
      modifies this`members
      ensures updated <==> reply.Ok?
      ensures members == if updated then MergeWhere(old(members), id, reply.payload) else old(members)
    {
      if reply.Ok? {
        members := MergeWhere(members, id, reply.payload);
        updated := true;
      } else {
        updated := false;
      }
    }

    /** Drops every cached member with that id on an ok reply. */
    method DeleteMember(id: string, reply: Reply<()>) returns (deleted: bool)
      modifies this`members
      ensures deleted <==> reply.Ok?
      ensures members == if deleted then Seqs.WithoutKey(old(members), MemberId, id) else old(members)
    {
      if reply.Ok? {
        members := Seqs.WithoutKey(members, MemberId, id);
        deleted := true;
      } else {
        deleted := false;
      }
    }
  }
}
