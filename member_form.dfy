/**
 * The member form: its schema, the avatar picker that uploads one image
 * and keeps its url, the request it builds, and the store call it hands
 * to the confirmation gate.
 */
module MemberForm {
  import opened Wrappers
  import opened Validation
  import opened Payloads
  import UploadRoute
  import MembersRoute
  import Confirmation

  datatype MemberFormData = MemberFormData(name: string, nickname: string, bio: Option<string>, role: Option<string>)

  datatype FormMode = CreateMode | EditMode

  /** The store call a submission makes. */
  datatype MemberCall = CreateMemberCall(body: MemberBody) | UpdateMemberCall(id: string, body: MemberBody)

  /** The schema's issues for one submission. */
  function Issues(d: MemberFormData): (r: seq<Issue>)
    ensures r == [] <==>
      && 2 <= |d.name| <= 100
      && 2 <= |d.nickname| <= 50
      && (d.bio.None? || |d.bio.value| <= 500)
      && (d.role.None? || |d.role.value| <= 100)
  {
    AtLeast("name", d.name, 2, "O nome deve ter pelo menos 2 caracteres")
      + AtMost("name", d.name, 100, "O nome deve ter no maximo 100 caracteres")
      + AtLeast("nickname", d.nickname, 2, "O apelido deve ter pelo menos 2 caracteres")
      + AtMost("nickname", d.nickname, 50, "O apelido deve ter no maximo 50 caracteres")
      + OptionalAtMost("bio", d.bio, 500, "A bio deve ter no maximo 500 caracteres")
      + OptionalAtMost("role", d.role, 100, "O cargo deve ter no maximo 100 caracteres")
  }

  /** An empty avatar url is left out of the request. */
  function AvatarField(url: string): (r: Option<string>)
    ensures r.None? <==> url == ""
    ensures r.Some? ==> r.value == url
  {
    if url == "" then None else Some(url)
  }

  /** The request body built from a validated submission and the current avatar url. */
  function Request(d: MemberFormData, avatarUrl: string): MemberBody {
    MemberBody(Some(d.name), Some(d.nickname), AvatarField(avatarUrl), d.bio, d.role)
  }

  /** The create route accepts every request the form builds and stores it as sent. */
  lemma RequestAccepted(d: MemberFormData, avatarUrl: string, id: string, now: int)
    ensures var row := MembersRoute.NewMemberRow(Request(d, avatarUrl), id, now);
      && row.Some?
      && row.value.name == d.name && row.value.nickname == d.nickname
      && row.value.bio == d.bio && row.value.role == d.role
      && (row.value.avatar.None? <==> avatarUrl == "")
  {
  }

  /**
   * The avatar url after an upload reply: the first reported file's url
   * on a good reply that reports one, the old url otherwise (a failed
   * reply is ignored, and reading a missing first entry throws and is caught).
   */
  function AvatarAfter(url: string, reply: Reply<UploadRoute.UploadBody>): (r: string)
    ensures reply.Ok? && reply.payload.files != [] ==> r == reply.payload.files[0].url
    ensures !(reply.Ok? && reply.payload.files != []) ==> r == url
  {
    if reply.Ok? && reply.payload.files != [] then reply.payload.files[0].url else url
  }

  /** Uploading one image through the route makes its stored url the avatar. */
  lemma UploadedAvatarIsKept(url: string, file: UploadRoute.UploadFile, env: UploadRoute.Env,
                             uploader: (seq<bv8>, UploadRoute.UploadOptions) -> Option<UploadRoute.CloudAsset>)
    requires UploadRoute.HandlePost(Some([file]), env, uploader).status == 200
    ensures AvatarAfter(url, Ok(UploadRoute.HandlePost(Some([file]), env, uploader).body.value))
      == UploadRoute.Upload1(file, uploader).value.secureUrl
  {
    var body := UploadRoute.HandlePost(Some([file]), env, uploader).body.value;
    assert |body.files| == 1;
  }

  /** Editing a member that has an id updates it; anything else creates a new one. */
  function Dispatch(mode: FormMode, memberId: Option<string>, body: MemberBody): (r: MemberCall)
    ensures r.body == body
    ensures r.UpdateMemberCall? <==> mode == EditMode && memberId.Some? && memberId.value != ""
    ensures r.UpdateMemberCall? ==> r.id == memberId.value
  {
    if mode == EditMode && memberId.Some? && memberId.value != "" then UpdateMemberCall(memberId.value, body)
    else CreateMemberCall(body)
  }

  /** The form's avatar state. */
  class AvatarPicker {
    var avatarUrl: string
    var isUploading: bool

    /** The form starts from the member's avatar, or none. */
    constructor (initial: Option<string>)
      ensures avatarUrl == initial.GetOr("") && !isUploading
    {
      avatarUrl := initial.GetOr("");
      isUploading := false;
    }

    /**
     * A file chosen in the avatar input: only the first one is posted
     * (returned as `sent`); with none chosen nothing happens.
     */
    method HandleAvatarUpload(chosen: Option<seq<UploadRoute.UploadFile>>, reply: Reply<UploadRoute.UploadBody>)
      returns (sent: Option<UploadRoute.UploadFile>)
      modifies this
      ensures chosen.None? || chosen.value == [] ==> sent.None?
      ensures chosen.Some? && chosen.value != [] ==> sent == Some(chosen.value[0])
      ensures sent.None? ==> avatarUrl == old(avatarUrl) && isUploading == old(isUploading)
      ensures sent.Some? ==> avatarUrl == AvatarAfter(old(avatarUrl), reply) && !isUploading
    {
      if chosen.None? || chosen.value == [] {
        return None;
      }
      sent := Some(chosen.value[0]);
      isUploading := true;
      avatarUrl := AvatarAfter(avatarUrl, reply);
      isUploading := false;
    }

    /** Pressing submit: an invalid form changes nothing; a valid one hands the store call to the gate. */
    method Submit(gate: Confirmation.Gate<MemberCall>, mode: FormMode, memberId: Option<string>, d: MemberFormData)
      modifies gate
      ensures Issues(d) != [] ==> gate.State() == old(gate.State())
      ensures Issues(d) == [] ==> gate.State() == Confirmation.Step(old(gate.State()),
        Confirmation.GateEvent.Confirm(Dispatch(mode, memberId, Request(d, avatarUrl))))
    {
      if Issues(d) == [] {
        gate.Confirm(Dispatch(mode, memberId, Request(d, avatarUrl)));
      }
    }
  }
}
