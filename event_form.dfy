/**
 * The event form: its schema, the request it builds, and the store call
 * it hands to the confirmation gate.
 */
module EventForm {
  import opened Wrappers
  import opened Validation
  import opened Payloads
  import Types
  import Database
  import EventsRoute
  import MediaUpload
  import Confirmation

  /** The validated form fields; the date is the text of the date-and-time input. */
  datatype EventFormData = EventFormData(
    title: string,
    description: Option<string>,
    location: Option<string>,
    date: string,
    createdBy: string,
    status: Option<string>)

  datatype FormMode = CreateMode | EditMode

  /** The store call a submission makes. */
  datatype EventCall = CreateEventCall(body: EventBody) | UpdateEventCall(id: string, body: EventBody)

  /** A status outside the four names is refused with the library's own message. */
  function StatusIssues(status: Option<string>): (r: seq<Issue>)
    ensures r == [] <==> status.None? || Types.ParseStatus(status.value).Some?
  {
    if status.Some? && Types.ParseStatus(status.value).None? then [Issue("status", None)] else []
  }

  /** The schema's issues for one submission. */
  function Issues(d: EventFormData): (r: seq<Issue>)
    ensures r == [] <==>
      && 3 <= |d.title| <= 100
      && (d.description.None? || |d.description.value| <= 500)
      && (d.location.None? || |d.location.value| <= 200)
      && |d.date| >= 1
      && 2 <= |d.createdBy| <= 50
      && (d.status.None? || Types.ParseStatus(d.status.value).Some?)
  {
    AtLeast("title", d.title, 3, "O titulo deve ter pelo menos 3 caracteres")
      + AtMost("title", d.title, 100, "O titulo deve ter no maximo 100 caracteres")
      + OptionalAtMost("description", d.description, 500, "A descricao deve ter no maximo 500 caracteres")
      + OptionalAtMost("location", d.location, 200, "O local deve ter no maximo 200 caracteres")
      + AtLeast("date", d.date, 1, "A data e obrigatoria")
      + AtLeast("createdBy", d.createdBy, 2, "O nome deve ter pelo menos 2 caracteres")
      + AtMost("createdBy", d.createdBy, 50, "O nome deve ter no maximo 50 caracteres")
      + StatusIssues(d.status)
  }

  /** The status the form starts with: the event's own, or upcoming for a new one. */
  function DefaultStatus(initial: Option<Types.EventStatus>): (s: string)
    ensures Types.ParseStatus(s).Some?
    ensures initial.Some? ==> Types.ParseStatus(s) == initial
    ensures initial.None? ==> s == "upcoming"
  {
    Types.StatusRoundTrip(initial.GetOr(Types.Upcoming));
    Types.StatusName(initial.GetOr(Types.Upcoming))
  }

  /** The status sent: the chosen one, or upcoming when none is chosen. */
  function RequestStatus(status: Option<string>): (s: string)
    ensures status.Some? && status.value != "" ==> s == status.value
    ensures status.None? || status.value == "" ==> s == "upcoming"
  {
    if status.Some? && status.value != "" then status.value else "upcoming"
  }

  /** The request body built from a validated submission. The form sends no cover image. */
  function Request(d: EventFormData, media: seq<MediaUpload.UploadedFile>, participantIds: seq<string>): EventBody {
    EventBody(
      Some(d.title), d.description, d.location, Some(d.date), None, Some(d.createdBy),
      Some(RequestStatus(d.status)), Some(participantIds), Some(MediaUpload.MediaInputs(media)))
  }

  /**
   * The create route accepts a valid submission exactly when it can read
   * the date, which the schema only checks for being non-empty; the event
   * is stored with the form's fields and a status the client can read back.
   */
  lemma RequestAccepted(d: EventFormData, media: seq<MediaUpload.UploadedFile>, participantIds: seq<string>,
                        id: string, now: int, parseDate: string -> Option<int>)
    requires Issues(d) == []
    ensures var row := EventsRoute.NewEventRow(Request(d, media, participantIds), id, now, parseDate);
      && (row.Some? <==> parseDate(d.date).Some?)
      && (row.Some? ==>
        && row.value.title == d.title && row.value.description == d.description
        && row.value.location == d.location && row.value.createdBy == d.createdBy
        && row.value.date == parseDate(d.date).value
        && Types.ParseStatus(row.value.status).Some?
        && (d.status.Some? ==> row.value.status == d.status.value))
  {
    if d.status.Some? {
      assert Types.ParseStatus(d.status.value).Some?;
      assert d.status.value != "";
    }
  }

  /** Editing an event that has an id updates it; anything else creates a new one. */
  function Dispatch(mode: FormMode, eventId: Option<string>, body: EventBody): (r: EventCall)
    ensures r.body == body
    ensures r.UpdateEventCall? <==> mode == EditMode && eventId.Some? && eventId.value != ""
    ensures r.UpdateEventCall? ==> r.id == eventId.value
  {
    if mode == EditMode && eventId.Some? && eventId.value != "" then UpdateEventCall(eventId.value, body)
    else CreateEventCall(body)
  }

  /** Pressing submit: an invalid form changes nothing; a valid one hands the store call to the gate. */
  method Submit(gate: Confirmation.Gate<EventCall>, mode: FormMode, eventId: Option<string>,
                d: EventFormData, media: seq<MediaUpload.UploadedFile>, participantIds: seq<string>)
    modifies gate
    ensures Issues(d) != [] ==> gate.State() == old(gate.State())
    ensures Issues(d) == [] ==> gate.State() == Confirmation.Step(old(gate.State()),
      Confirmation.GateEvent.Confirm(Dispatch(mode, eventId, Request(d, media, participantIds))))
  {
    if Issues(d) == [] {
      gate.Confirm(Dispatch(mode, eventId, Request(d, media, participantIds)));
    }
  }
}
