/**
 * The inquiry form dialog: its form fields and submission flags, the
 * `initialArtType` effect, field edits, the submit handler (save, then a
 * best-effort instant notification) and the reset that follows a success.
 * What `saveInquiry` and the notification call give back are parameters, and
 * the delayed reset is a separate step.
 */
module InquiryModal {
  import opened Wrappers
  import opened Js
  import Client
  import InquiryNotification

  type FormData = Client.FormData

  /** The form inputs, by their `name` attribute. */
  datatype FormField = Name | Email | Phone | ArtType | Size | Budget | Message | Timeline

  function Get(form: FormData, field: FormField): string {
    match field
    case Name => form.name
    case Email => form.email
    case Phone => form.phone
    case ArtType => form.artType
    case Size => form.size
    case Budget => form.budget
    case Message => form.message
    case Timeline => form.timeline
  }

  /** `{ ...formData, [name]: value }`: only the named field changes. */
  function Set(form: FormData, field: FormField, value: string): (r: FormData)
    ensures Get(r, field) == value
    ensures forall g :: g != field ==> Get(r, g) == Get(form, g)
  {
    match field
    case Name => form.(name := value)
    case Email => form.(email := value)
    case Phone => form.(phone := value)
    case ArtType => form.(artType := value)
    case Size => form.(size := value)
    case Budget => form.(budget := value)
    case Message => form.(message := value)
    case Timeline => form.(timeline := value)
  }

  const EmptyForm: FormData := Client.FormData("", "", "", "", "", "", "", "")

  /** The component's state. */
  datatype ModalState = ModalState(formData: FormData, isSubmitted: bool, isSubmitting: bool, error: Option<string>)

  const InitialState := ModalState(EmptyForm, false, false, None)

  /** The `initialArtType` effect: a non-empty value overwrites the art type and nothing else. */
  function WithInitialArtType(s: ModalState, initialArtType: string): (t: ModalState)
    ensures initialArtType != "" ==> t == s.(formData := Set(s.formData, ArtType, initialArtType))
    ensures initialArtType == "" ==> t == s
  {
    if initialArtType != "" then s.(formData := s.formData.(artType := initialArtType)) else s
  }

  /** `handleChange`: the named field takes the input's value. */
  function Changed(s: ModalState, field: FormField, value: string): (t: ModalState)
    ensures Get(t.formData, field) == value
    ensures forall g :: g != field ==> Get(t.formData, g) == Get(s.formData, g)
    ensures t.(formData := s.formData) == s
  {
    s.(formData := Set(s.formData, field, value))
  }

  /** What `saveInquiry` threw: an `Error` (with its message) or some other value. */
  datatype Thrown = ErrorThrown(message: string) | NonErrorThrown

  /** The saved row as returned, column to text; a null column is absent. */
  type SavedRow = map<string, string>

  /** What `await saveInquiry(formData)` gave: the saved row (`None` for `null` data), or what it threw. */
  datatype SaveOutcome = Saved(row: Option<SavedRow>) | SaveThrew(thrown: Thrown)

  /** What the `send-inquiry-notification` invocation gave; every case is only logged. */
  datatype NotifyOutcome = Notified | NotifyError(message: string) | NotifyThrew

  const DefaultSubmitError := "Failed to submit inquiry. Please try again."

  /** `err instanceof Error ? err.message : default`. */
  function ErrorText(t: Thrown): string {
    match t
    case ErrorThrown(m) => m
    case NonErrorThrown => DefaultSubmitError
  }

  /** `setIsSubmitting(true); setError(null)`. */
  function Began(s: ModalState): (t: ModalState)
    ensures t.isSubmitting && t.error.None?
    ensures t.formData == s.formData && t.isSubmitted == s.isSubmitted
  {
    s.(isSubmitting := true, error := None)
  }

  /**
   * The rest of `handleSubmit`: a saved inquiry marks the form submitted
   * whatever the notification gave; a failed save records the error and
   * leaves `isSubmitted` as it was; `isSubmitting` ends false either way.
   */
  function Finished(s: ModalState, save: SaveOutcome, notify: NotifyOutcome): (t: ModalState)
    ensures !t.isSubmitting
    ensures t.formData == s.formData
    ensures save.Saved? ==> t.isSubmitted && t.error == s.error
    ensures save.SaveThrew? ==> t.isSubmitted == s.isSubmitted && t.error == Some(ErrorText(save.thrown))
  {
    match save
    case Saved(_) => s.(isSubmitted := true, isSubmitting := false)
    case SaveThrew(thrown) => s.(error := Some(ErrorText(thrown)), isSubmitting := false)
  }

  /** One whole submission. */
  function Submitted(s: ModalState, save: SaveOutcome, notify: NotifyOutcome): (t: ModalState)
    ensures !t.isSubmitting && t.formData == s.formData
    ensures save.Saved? ==> t.isSubmitted && t.error.None?
    ensures save.SaveThrew? ==> t.isSubmitted == s.isSubmitted && t.error == Some(ErrorText(save.thrown))
  {
    Finished(Began(s), save, notify)
  }

  /**
   * A failed notification is not a failed submission: the state after a save
   * is the same whatever the notification gave. This holds by construction:
   * the notification's outcome is caught and only logged, so `Finished` never
   * reads it.
   */
  lemma NotificationNeverFatal(s: ModalState, row: Option<SavedRow>, n1: NotifyOutcome, n2: NotifyOutcome)
    ensures Submitted(s, Saved(row), n1) == Submitted(s, Saved(row), n2)
    ensures Submitted(s, Saved(row), n1).isSubmitted
  {
  }

  /** The delayed step after a success: every field emptied and the thank-you view left. */
  function AfterReset(s: ModalState): (t: ModalState)
    ensures forall field :: Get(t.formData, field) == ""
    ensures !t.isSubmitted
    ensures t.isSubmitting == s.isSubmitting && t.error == s.error
  {
    s.(formData := EmptyForm, isSubmitted := false)
  }

  /** A submitted form is back to its initial state once the reset has run. */
  lemma SubmitThenResetIsInitial(s: ModalState, row: Option<SavedRow>, n: NotifyOutcome)
    ensures AfterReset(Submitted(s, Saved(row), n)) == InitialState
  {
  }

  /** `savedInquiry?.[column]`: absent when there is no row or the column is null. */
  function Column(saved: Option<SavedRow>, column: string): Option<string> {
    if saved.Some? && column in saved.value then Some(saved.value[column]) else None
  }

  /** `savedInquiry?.[column] ?? fallback` gave `v`. */
  predicate SavedOr(v: Value, saved: Option<SavedRow>, column: string, fallback: string) {
    match Column(saved, column)
    case Some(c) => v == Str(c)
    case None => v == Str(fallback)
  }

  const PayloadKeys: set<string> := {
    "name", "email", "phone", "art_type", "size", "budget", "message", "timeline",
    "submitted_at", "ip_address", "user_agent"}

  /**
   * `inquiryForEmail`: each field is the saved row's value unless it is null or
   * missing, in which case the form's value (for `art_type`, the form's
   * `artType`), the current time, an empty address or the browser's user agent.
   */
  function NotificationPayload(saved: Option<SavedRow>, form: FormData, nowIso: string, userAgent: string): (p: Body)
    ensures p.Keys == PayloadKeys
    ensures SavedOr(p["name"], saved, "name", form.name) && SavedOr(p["email"], saved, "email", form.email)
    ensures SavedOr(p["phone"], saved, "phone", form.phone) && SavedOr(p["art_type"], saved, "art_type", form.artType)
    ensures SavedOr(p["size"], saved, "size", form.size) && SavedOr(p["budget"], saved, "budget", form.budget)
    ensures SavedOr(p["message"], saved, "message", form.message)
    ensures SavedOr(p["timeline"], saved, "timeline", form.timeline)
    ensures SavedOr(p["submitted_at"], saved, "submitted_at", nowIso)
    ensures SavedOr(p["ip_address"], saved, "ip_address", "")
    ensures SavedOr(p["user_agent"], saved, "user_agent", userAgent)
  {
    map[
      "name" := Str(Column(saved, "name").GetOr(form.name)),
      "email" := Str(Column(saved, "email").GetOr(form.email)),
      "phone" := Str(Column(saved, "phone").GetOr(form.phone)),
      "art_type" := Str(Column(saved, "art_type").GetOr(form.artType)),
      "size" := Str(Column(saved, "size").GetOr(form.size)),
      "budget" := Str(Column(saved, "budget").GetOr(form.budget)),
      "message" := Str(Column(saved, "message").GetOr(form.message)),
      "timeline" := Str(Column(saved, "timeline").GetOr(form.timeline)),
      "submitted_at" := Str(Column(saved, "submitted_at").GetOr(nowIso)),
      "ip_address" := Str(Column(saved, "ip_address").GetOr("")),
      "user_agent" := Str(Column(saved, "user_agent").GetOr(userAgent))]
  }

  /**
   * From form to notification: for the row the client saved from a form, the
   * instant notification shows the form's own name, email, phone, art type,
   * timeline and message, its size (or `Not specified`) and the saved address.
   */
  lemma SavedFormReachesNotification(form: FormData, ip: string, now: int, userAgent: string, nowIso: string, recipient: string)
    ensures
      var row := Client.InquiryRow(form, ip, now, userAgent);
      var payload := NotificationPayload(Some(Client.RowObject(row)), form, nowIso, userAgent);
      var e := InquiryNotification.NotificationFor(payload, recipient);
      && e.Some?
      && e.value.to == recipient
      && e.value.html.name == form.name && e.value.html.email == form.email
      && e.value.html.phone == form.phone && e.value.html.artType == form.artType
      && e.value.html.timeline == form.timeline && e.value.html.message == form.message
      && e.value.html.size == (if form.size != "" then form.size else "Not specified")
      && e.value.html.ipAddress == (if ip != "" then ip else "Unknown")
  {
    var row := Client.InquiryRow(form, ip, now, userAgent);
    var obj := Client.RowObject(row);
    var payload := NotificationPayload(Some(obj), form, nowIso, userAgent);
    assert Field(payload, "name") == Str(form.name) && Field(payload, "email") == Str(form.email);
    assert Field(payload, "phone") == Str(form.phone) && Field(payload, "art_type") == Str(form.artType);
    assert Field(payload, "timeline") == Str(form.timeline) && Field(payload, "message") == Str(form.message);
    assert Field(payload, "size") == Str(form.size) && Field(payload, "ip_address") == Str(ip);
    assert Field(payload, "user_agent") == Str(userAgent);
  }

  /** The dialog's state, updated in place by its handlers. */
  class InquiryForm {
    var formData: FormData
    var isSubmitted: bool
    var isSubmitting: bool
    var error: Option<string>

    function State(): ModalState
      reads this
    {
      ModalState(formData, isSubmitted, isSubmitting, error)
    }

    constructor ()
      ensures State() == InitialState
    {
      formData := EmptyForm;
      isSubmitted := false;
      isSubmitting := false;
      error := None;
    }

    method ApplyInitialArtType(initialArtType: string)
      modifies this
      ensures State() == WithInitialArtType(old(State()), initialArtType)
    {
      if initialArtType != "" {
        formData := formData.(artType := initialArtType);
      }
    }

    method HandleChange(field: FormField, value: string)
      modifies this
      ensures State() == Changed(old(State()), field, value)
    {
      formData := Set(formData, field, value);
    }

    /**
     * `handleSubmit`. `payload` is what is sent to the notification function:
     * nothing when the save failed.
     */
    method HandleSubmit(save: SaveOutcome, notify: NotifyOutcome, nowIso: string, userAgent: string)
      returns (payload: Option<Body>)
      modifies this
      ensures State() == Submitted(old(State()), save, notify)
      ensures save.Saved? <==> payload.Some?
      ensures save.Saved? ==> payload == Some(NotificationPayload(save.row, old(formData), nowIso, userAgent))
    {
      isSubmitting := true;
      error := None;
      match save {
        case Saved(row) =>
          payload := Some(NotificationPayload(row, formData, nowIso, userAgent));
          isSubmitted := true;
        case SaveThrew(thrown) =>
          payload := None;
          error := Some(ErrorText(thrown));
      }
      isSubmitting := false;
    }

    /** The timer callback: empty the form and leave the thank-you view (then the dialog asks to be closed). */
    method ResetAfterSuccess()
      modifies this
      ensures State() == AfterReset(old(State()))
    {
      isSubmitted := false;
      formData := EmptyForm;
    }
  }
}
