/**
 * The browser-side Supabase helpers: the visitor's IP lookup, saving an
 * inquiry and recording a visit (two tables the client appends to), the
 * derivation of the edge-functions URL, and the call to the server's e-mail
 * endpoint. The IP service's answer, the clock, the user agent and the
 * outcome of each insert or request are parameters.
 */
module Client {
  import opened Wrappers
  import opened Strings
  import opened Js
  import opened Rows
  import InquiryServer

  /** The inquiry form's eight fields. */
  datatype FormData = FormData(
    name: string,
    email: string,
    phone: string,
    artType: string,
    size: string,
    budget: string,
    message: string,
    timeline: string)

  /** What `fetch('https://api.ipify.org?format=json')` and `.json()` gave: the `ip` member, or a failure. */
  datatype IpLookup = IpReply(ip: Value) | IpFailed(reason: string)

  /** `getVisitorIP`: `data.ip || 'unknown'`, and `'unknown'` on any failure; never falsy. */
  function VisitorIp(lookup: IpLookup): (ip: Value)
    ensures Truthy(ip)
    ensures lookup.IpReply? && Truthy(lookup.ip) ==> ip == lookup.ip
    ensures !(lookup.IpReply? && Truthy(lookup.ip)) ==> ip == Str("unknown")
  {
    match lookup
    case IpReply(v) => OrElse(v, "unknown")
    case IpFailed(_) => Str("unknown")
  }

  const PendingStatus := "pending"

  /** The form as read back from a `queries` row. */
  function FormOf(row: QueryRow): FormData {
    FormData(row.name, row.email, row.phone, row.art_type, row.size, row.budget, row.message, row.timeline)
  }

  /**
   * The row `saveInquiry` inserts: the form's fields under the table's column
   * names (`artType` becomes `art_type`), the visitor's address, the time and
   * user agent, and status `pending`. Reading the form back gives the form.
   */
  function InquiryRow(form: FormData, ip: string, now: int, userAgent: string): (row: QueryRow)
    ensures FormOf(row) == form
    ensures row.art_type == form.artType
    ensures row.ip_address == ip && row.submitted_at == now && row.user_agent == userAgent
    ensures row.status == PendingStatus
  {
    QueryRow(
      name := form.name,
      email := form.email,
      phone := form.phone,
      art_type := form.artType,
      size := form.size,
      budget := form.budget,
      message := form.message,
      timeline := form.timeline,
      ip_address := ip,
      submitted_at := now,
      user_agent := userAgent,
      status := PendingStatus)
  }

  /** The saved row as the JSON object `.select().single()` returns; the timestamp is kept as its decimal text. */
  function RowObject(row: QueryRow): map<string, string> {
    map[
      "name" := row.name, "email" := row.email, "phone" := row.phone, "art_type" := row.art_type,
      "size" := row.size, "budget" := row.budget, "message" := row.message, "timeline" := row.timeline,
      "ip_address" := row.ip_address, "submitted_at" := IntToString(row.submitted_at),
      "user_agent" := row.user_agent, "status" := row.status]
  }

  /** The two tables the client appends to. */
  class Database {
    var queries: seq<QueryRow>
    var visitors: seq<VisitorRow>

    constructor ()
      ensures queries == [] && visitors == []
    {
      queries := [];
      visitors := [];
    }

    /**
     * `saveInquiry`: insert the row and return it, or fail with the insert's
     * error message (`throw new Error(error.message)`), writing nothing.
     */
    method SaveInquiry(form: FormData, lookup: IpLookup, now: int, userAgent: string, insertError: Option<string>)
      returns (saved: Result<QueryRow, string>)
      modifies this
      ensures insertError.None? ==>
        var row := InquiryRow(form, Text(VisitorIp(lookup)), now, userAgent);
        saved == Success(row) && queries == old(queries) + [row]
      ensures insertError.Some? ==> saved == Failure(insertError.value) && queries == old(queries)
      ensures visitors == old(visitors)
    {
      var ip := VisitorIp(lookup);
      var row := InquiryRow(form, Text(ip), now, userAgent);
      if insertError.Some? {
        return Failure(insertError.value);
      }
      queries := queries + [row];
      saved := Success(row);
    }

    /** `trackVisitor`: record the visit; an insert error is only logged, so the call never fails. */
    method TrackVisitor(lookup: IpLookup, now: int, userAgent: string, insertError: Option<string>)
      modifies this
      ensures insertError.None? ==> visitors == old(visitors) + [VisitorRow(Text(VisitorIp(lookup)), now, userAgent)]
      ensures insertError.Some? ==> visitors == old(visitors)
      ensures queries == old(queries)
    {
      var ip := VisitorIp(lookup);
      if insertError.None? {
        visitors := visitors + [VisitorRow(Text(ip), now, userAgent)];
      }
    }
  }

  const ProjectHostSuffix := ".supabase.co"
  const FunctionsHostSuffix := ".functions.supabase.co"
  /** The project reference of the default project URL `https://cxdilpipsfdkihcfwbha.supabase.co`. */
  const DefaultProjectRef := "cxdilpipsfdkihcfwbha"
  /** The fixed fallback `https://cxdilpipsfdkihcfwbha.functions.supabase.co/server`. */
  const FallbackFunctionsBase := "https://" + DefaultProjectRef + FunctionsHostSuffix + "/server"

  /**
   * `getFunctionsBase`. `override` is VITE_FUNCTIONS_URL; `hostname` is the
   * project URL's host name, `None` when `new URL` cannot parse it.
   */
  function FunctionsBase(override: Option<string>, hostname: Option<string>): (base: string)
    ensures Present(override) ==> base == override.value
    ensures !Present(override) && hostname.None? ==> base == FallbackFunctionsBase
    ensures !Present(override) && hostname.Some? ==> IsPrefix("https://", base)
  {
    if Present(override) then override.value
    else match hostname
      case None => FallbackFunctionsBase
      case Some(host) =>
        var fnHost := ReplaceFirst(host, ProjectHostSuffix, FunctionsHostSuffix);
        var base := "https://" + fnHost + "/server";
        assert base == "https://" + (fnHost + "/server");
        base
  }

  /** A project host `<ref>.supabase.co` (the reference has no dot) maps to `https://<ref>.functions.supabase.co/server`. */
  lemma ProjectHostToFunctionsBase(projectRef: string)
    requires '.' !in projectRef
    ensures FunctionsBase(None, Some(projectRef + ProjectHostSuffix))
         == "https://" + projectRef + FunctionsHostSuffix + "/server"
  {
    NoOccurrenceWithoutFirstChar(projectRef, ProjectHostSuffix, "");
    ReplaceFirstSplit(projectRef, ProjectHostSuffix, FunctionsHostSuffix, "");
    assert projectRef + ProjectHostSuffix + "" == projectRef + ProjectHostSuffix;
    assert projectRef + FunctionsHostSuffix + "" == projectRef + FunctionsHostSuffix;
  }

  /** The fixed fallback is what the default project URL would give: a parse failure does not change the endpoint. */
  lemma FallbackMatchesDefaultProject()
    ensures FunctionsBase(None, Some(DefaultProjectRef + ProjectHostSuffix)) == FallbackFunctionsBase
  {
    assert '.' !in DefaultProjectRef;
    ProjectHostToFunctionsBase(DefaultProjectRef);
  }

  /** A host that does not contain `.supabase.co` (a custom domain) is kept as it is. */
  lemma OtherHostKept(host: string)
    requires forall j: nat :: !OccursAt(host, ProjectHostSuffix, j)
    ensures FunctionsBase(None, Some(host)) == "https://" + host + "/server"
  {
    ReplaceFirstWithoutMatch(host, ProjectHostSuffix, FunctionsHostSuffix);
  }

  const EmailEndpointPath := "/make-server-ac147f29/inquiries/email"

  function InquiryEmailUrl(base: string): (url: string)
    ensures IsPrefix(base, url) && url[|base|..] == EmailEndpointPath
  {
    base + EmailEndpointPath
  }

  /** `JSON.stringify(formData)` as the server reads it. */
  function FormBody(form: FormData): Body {
    map[
      "name" := Str(form.name), "email" := Str(form.email), "phone" := Str(form.phone),
      "artType" := Str(form.artType), "size" := Str(form.size), "budget" := Str(form.budget),
      "message" := Str(form.message), "timeline" := Str(form.timeline)]
  }

  /** The server's e-mail endpoint accepts a posted form exactly when its name, email, art type and message are non-empty. */
  lemma FormPassesServerCheck(form: FormData)
    ensures InquiryServer.AllRequiredStrings(FormBody(form))
        <==> form.name != "" && form.email != "" && form.artType != "" && form.message != ""
  {
    var body := FormBody(form);
    assert InquiryServer.RequiredFields[0] == "name" && InquiryServer.RequiredFields[1] == "email";
    assert InquiryServer.RequiredFields[2] == "artType" && InquiryServer.RequiredFields[3] == "message";
    if InquiryServer.AllRequiredStrings(body) {
      assert NonEmptyString(Field(body, InquiryServer.RequiredFields[0]));
      assert NonEmptyString(Field(body, InquiryServer.RequiredFields[1]));
      assert NonEmptyString(Field(body, InquiryServer.RequiredFields[2]));
      assert NonEmptyString(Field(body, InquiryServer.RequiredFields[3]));
    }
  }

  /** What the `fetch` to the e-mail endpoint gave: a response (its `ok` flag and what `.json()` gives), or a rejection. */
  datatype EmailReply = EmailResponse(ok: bool, json: Result<Value, string>) | EmailUnreachable(reason: string)

  const EmailFailedMessage := "Failed to send inquiry email"

  /** `sendInquiryEmail`'s result: the response's JSON when it is ok, otherwise an error. */
  function SendInquiryEmailResult(reply: EmailReply): (r: Result<Value, string>)
    ensures r.Success? <==> reply.EmailResponse? && reply.ok && reply.json.Success?
    ensures r.Success? ==> r.value == reply.json.value
    ensures reply.EmailResponse? && !reply.ok ==> r == Failure(EmailFailedMessage)
  {
    match reply
    case EmailUnreachable(reason) => Failure(reason)
    case EmailResponse(ok, json) =>
      if !ok then Failure(EmailFailedMessage)
      else json
  }
}
