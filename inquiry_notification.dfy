/**
 * The instant notification (the `send-inquiry-notification` edge function):
 * check the three secrets, read the configured recipient, render the inquiry
 * and post it to Resend, then map Resend's answer to the function's response.
 * The secrets, the configured recipient and Resend's answer are parameters.
 */
module InquiryNotification {
  import opened Wrappers
  import opened Strings
  import opened Js

  /** The three secrets the function reads, each as `Deno.env.get` returns it. */
  datatype Secrets = Secrets(resendApiKey: Option<string>, supabaseUrl: Option<string>, serviceRoleKey: Option<string>)

  /** The secrets' names, in the order the error message lists them. */
  const SecretNames: seq<string> := ["RESEND_API_KEY", "SUPABASE_URL", "SUPABASE_SERVICE_ROLE_KEY"]

  function SecretAt(s: Secrets, i: nat): Option<string>
    requires i < |SecretNames|
  {
    if i == 0 then s.resendApiKey else if i == 1 then s.supabaseUrl else s.serviceRoleKey
  }

  /** The position of a name in `SecretNames` (3 for any other name). */
  function SecretRank(name: string): nat {
    if name == SecretNames[0] then 0
    else if name == SecretNames[1] then 1
    else if name == SecretNames[2] then 2
    else 3
  }

  /** The `[!KEY && "KEY", ...].filter(Boolean)` list: exactly the unusable secrets, in the fixed order. */
  function MissingSecrets(s: Secrets): (r: seq<string>)
    ensures forall i :: 0 <= i < |SecretNames| ==> (SecretNames[i] in r <==> !Present(SecretAt(s, i)))
    ensures forall name :: name in r ==> name in SecretNames
    ensures forall i, j :: 0 <= i < j < |r| ==> SecretRank(r[i]) < SecretRank(r[j])
    ensures r == [] <==> Present(s.resendApiKey) && Present(s.supabaseUrl) && Present(s.serviceRoleKey)
  {
    (if Present(s.resendApiKey) then [] else [SecretNames[0]])
    + (if Present(s.supabaseUrl) then [] else [SecretNames[1]])
    + (if Present(s.serviceRoleKey) then [] else [SecretNames[2]])
  }

  const MissingLead := "\U{274C} MISSING SECRETS: "
  const VaultHint := ". Go to Supabase Dashboard \U{2192} Settings \U{2192} Vault and add them."

  /** The error text: the lead, the missing names joined with `, `, then where to add them. */
  function MissingSecretsMessage(missing: seq<string>): (m: string)
    ensures |m| == |MissingLead| + |Join(missing, ", ")| + |VaultHint|
    ensures IsPrefix(MissingLead, m)
    ensures m[|MissingLead|..|m| - |VaultHint|] == Join(missing, ", ")
    ensures m[|m| - |VaultHint|..] == VaultHint
  {
    var m := MissingLead + Join(missing, ", ") + VaultHint;
    assert m[..|MissingLead|] == MissingLead;
    assert m[|MissingLead|..|m| - |VaultHint|] == Join(missing, ", ");
    m
  }

  /** The error message names every missing secret. */
  lemma MissingMessageNamesEach(s: Secrets, i: nat)
    requires i < |MissingSecrets(s)|
    ensures exists k: nat :: OccursAt(MissingSecretsMessage(MissingSecrets(s)), MissingSecrets(s)[i], k)
  {
    var missing := MissingSecrets(s);
    var m := MissingSecretsMessage(missing);
    JoinContainsPart(missing, ", ", i);
    var k: nat :| OccursAt(Join(missing, ", "), missing[i], k);
    OccursInSlice(m, |MissingLead|, |m| - |VaultHint|, missing[i], k);
  }

  const DefaultRecipient := "kanakartistry.art@gmail.com"

  /**
   * `config?.recipient_email || default`. `configured` is the `recipient_email`
   * of the row read from `email_config`, `None` when no row could be read (the
   * read's error is only logged) or the column is null.
   */
  function Recipient(configured: Option<string>): (r: string)
    ensures r != ""
    ensures Present(configured) ==> r == configured.value
    ensures !Present(configured) ==> r == DefaultRecipient
  {
    PresentOr(configured, DefaultRecipient)
  }

  /**
   * The device line: the first 80 characters of a truthy `user_agent` followed
   * by `...` (whatever its length), `Unknown` for a falsy one, and `None` when
   * a truthy non-string makes `.substring` throw.
   */
  function DeviceLine(ua: Value): (r: Option<string>)
    ensures !Truthy(ua) ==> r == Some("Unknown")
    ensures NonEmptyString(ua) ==>
      && r.Some?
      && |r.value| == (if |ua.s| < 80 then |ua.s| else 80) + 3
      && IsPrefix(r.value[..|r.value| - 3], ua.s)
      && r.value[|r.value| - 3..] == "..."
    ensures r.None? <==> Truthy(ua) && !ua.Str?
  {
    match ua
    case Str(s) => if s == "" then Some("Unknown") else Some(Take(s, 80) + "...")
    case Other(_, truthy) => if truthy then None else Some("Unknown")
    case _ => Some("Unknown")
  }

  /** The inquiry as laid out in the notification's HTML, one rendered value per line. */
  datatype NotificationFields = NotificationFields(
    name: string,
    email: string,
    phone: string,
    artType: string,
    size: string,
    budget: string,
    timeline: string,
    message: string,
    ipAddress: string,
    device: string)

  const NotificationSender := "KanakArtistry <onboarding@resend.dev>"
  const SubjectLead := "\U{1F3A8} New Art Inquiry from "

  /** The JSON payload posted to Resend. */
  datatype NotificationEmail = NotificationEmail(from: string, to: string, subject: string, html: NotificationFields)

  /**
   * The notification for a parsed inquiry, or `None` when rendering it throws.
   * Only size, budget and the IP address have a fallback; the other fields are
   * interpolated as they are.
   */
  function NotificationFor(inquiry: Body, recipient: string): (e: Option<NotificationEmail>)
    ensures e.Some? <==> DeviceLine(Field(inquiry, "user_agent")).Some?
    ensures e.Some? ==>
      && e.value.from == NotificationSender
      && e.value.to == recipient
      && e.value.subject == SubjectLead + Text(Field(inquiry, "name"))
    ensures e.Some? ==>
      var h := e.value.html;
      && h.name == Text(Field(inquiry, "name")) && h.email == Text(Field(inquiry, "email"))
      && h.phone == Text(Field(inquiry, "phone")) && h.artType == Text(Field(inquiry, "art_type"))
      && h.timeline == Text(Field(inquiry, "timeline")) && h.message == Text(Field(inquiry, "message"))
      && RendersOr(h.size, Field(inquiry, "size"), "Not specified")
      && RendersOr(h.budget, Field(inquiry, "budget"), "Not specified")
      && RendersOr(h.ipAddress, Field(inquiry, "ip_address"), "Unknown")
      && Some(h.device) == DeviceLine(Field(inquiry, "user_agent"))
  {
    match DeviceLine(Field(inquiry, "user_agent"))
    case None => None
    case Some(device) =>
      var html := NotificationFields(
        name := Text(Field(inquiry, "name")),
        email := Text(Field(inquiry, "email")),
        phone := Text(Field(inquiry, "phone")),
        artType := Text(Field(inquiry, "art_type")),
        size := Text(OrElse(Field(inquiry, "size"), "Not specified")),
        budget := Text(OrElse(Field(inquiry, "budget"), "Not specified")),
        timeline := Text(Field(inquiry, "timeline")),
        message := Text(Field(inquiry, "message")),
        ipAddress := Text(OrElse(Field(inquiry, "ip_address"), "Unknown")),
        device := device);
      Some(NotificationEmail(NotificationSender, recipient, SubjectLead + Text(Field(inquiry, "name")), html))
  }

  /** What `JSON.parse` makes of Resend's response text: its `id` (absent or present), or a parse failure. */
  datatype JsonBody = Unparseable | Json(id: Option<string>)

  /** What the `fetch` to Resend gave: a response (status, text and its parse), or a rejection. */
  datatype ProviderReply = Unreachable(reason: string) | Http(status: int, text: string, body: JsonBody)

  /** `result.ok`: a status in 200..299. */
  predicate Ok(status: int) {
    200 <= status <= 299
  }

  const InvalidKeyHint := "Invalid API key in Vault"
  const DashboardHint := "Check Resend dashboard for details"

  function HintFor(status: int): (h: string)
    ensures h == InvalidKeyHint <==> status == 401
    ensures h == DashboardHint <==> status != 401
  {
    if status == 401 then InvalidKeyHint else DashboardHint
  }

  /** The function's responses; only `PreflightOk` and `Delivered` have status 200. */
  datatype Response =
    | PreflightOk
    | SecretsMissing(error: string)
    | ProviderFailed(status: int, body: string, hint: string)
    | Delivered(messageId: Option<string>, sentTo: string)
    | InternalError(message: string)

  function HttpStatus(r: Response): int {
    if r.PreflightOk? || r.Delivered? then 200 else 500
  }

  /**
   * The response once the notification has been posted: delivered exactly when
   * Resend answered with an ok status, with a message id only when its body
   * parsed; a non-ok status is reported with its text and a hint.
   */
  function AfterSend(provider: ProviderReply, recipient: string): (r: Response)
    ensures r.Delivered? <==> provider.Http? && Ok(provider.status)
    ensures r.Delivered? ==> r.sentTo == recipient
    ensures r.Delivered? ==> (r.messageId.Some? ==> provider.body == Json(r.messageId))
    ensures r.Delivered? && provider.body.Json? ==> r.messageId == provider.body.id
    ensures r.ProviderFailed? <==> provider.Http? && !Ok(provider.status)
    ensures r.ProviderFailed? ==>
      r.status == provider.status && r.body == provider.text && (r.hint == InvalidKeyHint <==> r.status == 401)
    ensures HttpStatus(r) == 200 <==> r.Delivered?
  {
    match provider
    case Unreachable(reason) => InternalError(reason)
    case Http(status, text, body) =>
      if !Ok(status) then ProviderFailed(status, text, HintFor(status))
      else match body
        case Unparseable => Delivered(None, recipient)
        case Json(id) => Delivered(id, recipient)
  }

  /** An incoming request: its HTTP method and what `req.json()` gives. */
  datatype NotificationRequest = NotificationRequest(httpMethod: string, body: Request)

  /** The response and, when the function got that far, the payload posted to Resend. */
  datatype Outcome = Outcome(response: Response, sent: Option<NotificationEmail>)

  const UserAgentTypeError := "inquiry.user_agent.substring is not a function"

  /** One invocation of the function. */
  function Handle(req: NotificationRequest, secrets: Secrets, configured: Option<string>, provider: ProviderReply): (o: Outcome)
    ensures req.httpMethod == "OPTIONS" ==> o == Outcome(PreflightOk, None)
    ensures req.httpMethod != "OPTIONS" && MissingSecrets(secrets) != [] ==>
      o == Outcome(SecretsMissing(MissingSecretsMessage(MissingSecrets(secrets))), None)
    ensures req.httpMethod != "OPTIONS" && MissingSecrets(secrets) == [] && req.body.NullBody? ==>
      o == Outcome(InternalError(NullFieldError("submitted_at")), None)
    ensures o.sent.Some? <==>
      && req.httpMethod != "OPTIONS" && MissingSecrets(secrets) == [] && req.body.Parsed?
      && NotificationFor(req.body.fields, Recipient(configured)).Some?
    ensures o.sent.Some? ==>
      && o.sent == NotificationFor(req.body.fields, Recipient(configured))
      && o.response == AfterSend(provider, Recipient(configured))
    ensures o.response.Delivered? ==> o.sent.Some? && o.response.sentTo == o.sent.value.to
    ensures HttpStatus(o.response) == 200 <==> o.response.PreflightOk? || o.response.Delivered?
  {
    if req.httpMethod == "OPTIONS" then Outcome(PreflightOk, None)
    else
      var missing := MissingSecrets(secrets);
      if missing != [] then Outcome(SecretsMissing(MissingSecretsMessage(missing)), None)
      else match req.body
        case Malformed(reason) => Outcome(InternalError(reason), None)
        case NullBody => Outcome(InternalError(NullFieldError("submitted_at")), None)
        case Parsed(inquiry) =>
          var recipient := Recipient(configured);
          match NotificationFor(inquiry, recipient)
          case None => Outcome(InternalError(UserAgentTypeError), None)
          case Some(email) => Outcome(AfterSend(provider, recipient), Some(email))
  }

  /** With every secret missing (an empty value counts as missing), the message lists all three, in order. */
  lemma AllSecretsMissing()
    ensures var missing := MissingSecrets(Secrets(None, Some(""), None));
            Join(missing, ", ") == SecretNames[0] + ", " + SecretNames[1] + ", " + SecretNames[2]
  {
    var missing := MissingSecrets(Secrets(None, Some(""), None));
    assert missing == SecretNames;
    assert missing[1..][1..] == [SecretNames[2]];
    assert Join(missing[1..], ", ") == SecretNames[1] + ", " + SecretNames[2];
  }
}
