/**
 * The inquiry server (a Hono app on Supabase Edge Functions): create, list,
 * get and status-update endpoints over a key-value store, and an endpoint that
 * e-mails an inquiry through Resend. The store is a map from key to record
 * held by a class; request bodies are parsed JSON objects; the clock, the
 * random id suffix and the e-mail provider's answer are parameters.
 */
module InquiryServer {
  import opened Wrappers
  import opened Strings
  import opened Js
  import Sequences

  /** A stored inquiry record. Timestamps are milliseconds since the epoch. */
  datatype Inquiry = Inquiry(
    id: string,
    name: Value,
    email: Value,
    phone: Value,
    artType: Value,
    size: Value,
    budget: Value,
    timeline: Value,
    message: Value,
    status: Value,
    createdAt: int,
    updatedAt: Option<int>)

  function CreatedAt(i: Inquiry): int {
    i.createdAt
  }

  /** The JSON reply of an endpoint; every reply but `Failed` goes out with HTTP 200. */
  datatype Reply =
    | Created(inquiryId: string)
    | Sent
    | Listed(inquiries: seq<Inquiry>, count: nat)
    | Found(inquiry: Inquiry)
    | Failed(code: int, error: string)

  function StatusCode(r: Reply): int {
    if r.Failed? then r.code else 200
  }

  const IdPrefix := "inquiry_"
  const MissingRequiredMessage :=
    "Missing required fields: name, email, artType, and message are required"
  const NotFoundMessage := "Inquiry not found"
  const CreateErrorLead := "Error submitting inquiry: "
  const UpdateErrorLead := "Error updating inquiry status: "

  /**
   * The create endpoint accepts a body only when name, email, artType and
   * message are all truthy: the same four fields the e-mail endpoint checks,
   * though it does not ask for strings.
   */
  function HasRequiredFields(body: Body): (ok: bool)
    ensures ok <==> forall i :: 0 <= i < |RequiredFields| ==> Truthy(Field(body, RequiredFields[i]))
  {
    var ok := && Truthy(Field(body, "name"))
              && Truthy(Field(body, "email"))
              && Truthy(Field(body, "artType"))
              && Truthy(Field(body, "message"));
    EachRequiredField(body);
    ok
  }

  /** Truthiness of every required field, unrolled over the four names. */
  lemma EachRequiredField(body: Body)
    ensures (forall i :: 0 <= i < |RequiredFields| ==> Truthy(Field(body, RequiredFields[i])))
        <==> Truthy(Field(body, "name")) && Truthy(Field(body, "email"))
             && Truthy(Field(body, "artType")) && Truthy(Field(body, "message"))
  {
    assert RequiredFields[0] == "name" && RequiredFields[1] == "email";
    assert RequiredFields[2] == "artType" && RequiredFields[3] == "message";
    if Truthy(Field(body, "name")) && Truthy(Field(body, "email"))
       && Truthy(Field(body, "artType")) && Truthy(Field(body, "message")) {
      forall i | 0 <= i < |RequiredFields|
        ensures Truthy(Field(body, RequiredFields[i]))
      {
        if i == 0 {} else if i == 1 {} else if i == 2 {} else {}
      }
    }
  }

  /** `inquiry_${Date.now()}_${random}`, with the clock reading and the random base-36 suffix as parameters. */
  function NewInquiryId(now: nat, suffix: string): (id: string)
    ensures IsPrefix(IdPrefix, id)
  {
    var id := IdPrefix + (NatToString(now) + "_" + suffix);
    assert id[..|IdPrefix|] == IdPrefix;
    id
  }

  /** An optional field stored as `given || ''`: kept when truthy, otherwise the empty string. */
  predicate StoredOrEmpty(stored: Value, given: Value) {
    (Truthy(given) && stored == given) || (!Truthy(given) && stored == Str(""))
  }

  /** The record the create endpoint stores for a body. */
  function NewInquiry(id: string, body: Body, now: int): (r: Inquiry)
    ensures r.id == id && r.status == Str("new") && r.createdAt == now && r.updatedAt.None?
    ensures r.name == Field(body, "name") && r.email == Field(body, "email")
    ensures r.artType == Field(body, "artType") && r.message == Field(body, "message")
    ensures StoredOrEmpty(r.phone, Field(body, "phone")) && StoredOrEmpty(r.size, Field(body, "size"))
    ensures StoredOrEmpty(r.budget, Field(body, "budget")) && StoredOrEmpty(r.timeline, Field(body, "timeline"))
  {
    Inquiry(
      id := id,
      name := Field(body, "name"),
      email := Field(body, "email"),
      phone := OrElse(Field(body, "phone"), ""),
      artType := Field(body, "artType"),
      size := OrElse(Field(body, "size"), ""),
      budget := OrElse(Field(body, "budget"), ""),
      timeline := OrElse(Field(body, "timeline"), ""),
      message := Field(body, "message"),
      status := Str("new"),
      createdAt := now,
      updatedAt := None)
  }

  /** `{ ...inquiry, status, updatedAt }`. */
  function WithStatus(inquiry: Inquiry, status: Value, now: int): (r: Inquiry)
    ensures r.status == status && r.updatedAt == Some(now)
    ensures r.(status := inquiry.status, updatedAt := inquiry.updatedAt) == inquiry
  {
    inquiry.(status := status, updatedAt := Some(now))
  }

  /** The keys among `keys` that hold the record `r` in the table `kv`. */
  ghost function Holding(kv: map<string, Inquiry>, keys: set<string>, r: Inquiry): set<string> {
    set k | k in keys && k in kv && kv[k] == r
  }

  /**
   * Adding the record under one more key to a list that counts every record
   * once per key holding it keeps that count exact.
   */
  lemma InsertKeepsCounts(kv: map<string, Inquiry>, done: set<string>, k: string, before: seq<Inquiry>, after: seq<Inquiry>)
    requires k in kv && k !in done
    requires forall r :: multiset(before)[r] == |Holding(kv, done, r)|
    requires multiset(after) == multiset(before) + multiset{kv[k]}
    ensures forall r :: multiset(after)[r] == |Holding(kv, done + {k}, r)|
  {
    forall r ensures multiset(after)[r] == |Holding(kv, done + {k}, r)| {
      if r == kv[k] {
        assert Holding(kv, done + {k}, r) == Holding(kv, done, r) + {k};
      } else {
        assert Holding(kv, done + {k}, r) == Holding(kv, done, r);
      }
    }
  }

  class InquiryStore {
    /** The key-value table: key to stored record. */
    var kv: map<string, Inquiry>

    constructor ()
      ensures kv == map[]
    {
      kv := map[];
    }

    /**
     * POST /inquiries: validate, build the record, store it under an
     * `inquiry_` key. `setError` is the message `kv.set` rejects with, if it
     * does; a rejected write leaves the table as it was.
     */
    method Create(request: Request, now: nat, suffix: string, setError: Option<string>) returns (reply: Reply)
      modifies this
      ensures request.Malformed? ==>
        reply == Failed(500, CreateErrorLead + request.reason) && kv == old(kv)
      ensures request.NullBody? ==>
        reply == Failed(500, CreateErrorLead + NullFieldError("name")) && kv == old(kv)
      ensures request.Parsed? && !HasRequiredFields(request.fields) ==>
        reply == Failed(400, MissingRequiredMessage) && kv == old(kv)
      ensures request.Parsed? && HasRequiredFields(request.fields) && setError.Some? ==>
        reply == Failed(500, CreateErrorLead + setError.value) && kv == old(kv)
      ensures request.Parsed? && HasRequiredFields(request.fields) && setError.None? ==>
        && reply == Created(NewInquiryId(now, suffix))
        && IsPrefix(IdPrefix, reply.inquiryId)
        && kv == old(kv)[reply.inquiryId := NewInquiry(reply.inquiryId, request.fields, now)]
    {
      match request
      case Malformed(reason) =>
        return Failed(500, CreateErrorLead + reason);
      case NullBody =>
        return Failed(500, CreateErrorLead + NullFieldError("name"));
      case Parsed(body) =>
        if !HasRequiredFields(body) {
          return Failed(400, MissingRequiredMessage);
        }
        var id := NewInquiryId(now, suffix);
        if setError.Some? {
          return Failed(500, CreateErrorLead + setError.value);
        }
        kv := kv[id := NewInquiry(id, body, now)];
        reply := Created(id);
    }

    /** GET /inquiries/:id. `getError` is the message `kv.get` rejects with, if it does. */
    method Get(id: string, getError: Option<string>) returns (reply: Reply)
      ensures reply.Found? <==> getError.None? && id in kv
      ensures getError.Some? ==> reply == Failed(500, "Error fetching inquiry: " + getError.value)
      ensures getError.None? && id in kv ==> reply == Found(kv[id])
      ensures getError.None? && id !in kv ==> reply == Failed(404, NotFoundMessage)
    {
      if getError.Some? {
        return Failed(500, "Error fetching inquiry: " + getError.value);
      }
      if id !in kv {
        return Failed(404, NotFoundMessage);
      }
      reply := Found(kv[id]);
    }

    /**
     * PUT /inquiries/:id/status: overwrite `status` and `updatedAt` of an
     * existing record. The body is parsed first, the record looked up next, and
     * `body.status` read only for a record that exists, so a `null` body on an
     * unknown id is answered 404. `getError` and `setError` are the messages
     * `kv.get` and `kv.set` reject with, if they do.
     */
    method UpdateStatus(id: string, request: Request, now: int, getError: Option<string>, setError: Option<string>)
      returns (reply: Reply)
      modifies this
      ensures request.Malformed? ==>
        reply == Failed(500, UpdateErrorLead + request.reason) && kv == old(kv)
      ensures !request.Malformed? && getError.Some? ==>
        reply == Failed(500, UpdateErrorLead + getError.value) && kv == old(kv)
      ensures !request.Malformed? && getError.None? && id !in old(kv) ==>
        reply == Failed(404, NotFoundMessage) && kv == old(kv)
      ensures request.NullBody? && getError.None? && id in old(kv) ==>
        reply == Failed(500, UpdateErrorLead + NullFieldError("status")) && kv == old(kv)
      ensures request.Parsed? && getError.None? && id in old(kv) && setError.Some? ==>
        reply == Failed(500, UpdateErrorLead + setError.value) && kv == old(kv)
      ensures request.Parsed? && getError.None? && id in old(kv) && setError.None? ==>
        && kv == old(kv)[id := WithStatus(old(kv)[id], Field(request.fields, "status"), now)]
        && reply == Found(kv[id])
    {
      if request.Malformed? {
        return Failed(500, UpdateErrorLead + request.reason);
      }
      if getError.Some? {
        return Failed(500, UpdateErrorLead + getError.value);
      }
      if id !in kv {
        return Failed(404, NotFoundMessage);
      }
      if request.NullBody? {
        return Failed(500, UpdateErrorLead + NullFieldError("status"));
      }
      var updated := WithStatus(kv[id], Field(request.fields, "status"), now);
      if setError.Some? {
        return Failed(500, UpdateErrorLead + setError.value);
      }
      kv := kv[id := updated];
      reply := Found(updated);
    }

    /** The keys `kv.getByPrefix('inquiry_')` returns records for. */
    ghost function ListedKeys(): set<string>
      reads this
    {
      set k | k in kv && IsPrefix(IdPrefix, k)
    }


    /**
     * `kv.getByPrefix('inquiry_')` followed by the sort: every record under an
     * `inquiry_` key, newest first, each as many times as there are such keys
     * holding it.
     */
    method SortedInquiries() returns (sorted: seq<Inquiry>)
      ensures |sorted| == |ListedKeys()|
      ensures Sequences.NewestFirst(sorted, CreatedAt)
      ensures forall r :: multiset(sorted)[r] == |Holding(kv, ListedKeys(), r)|
    {
      var remaining := set k | k in kv && IsPrefix(IdPrefix, k);
      ghost var done: set<string> := {};
      sorted := [];
      while remaining != {}
        invariant remaining !! done && remaining + done == ListedKeys()
        invariant |sorted| == |done|
        invariant Sequences.NewestFirst(sorted, CreatedAt)
        invariant forall r :: multiset(sorted)[r] == |Holding(kv, done, r)|
        decreases remaining
      {
        var k :| k in remaining;
        var x := kv[k];
        ghost var before := sorted;
        sorted := Sequences.InsertNewestFirst(sorted, x, CreatedAt);
        InsertKeepsCounts(kv, done, k, before, sorted);
        remaining := remaining - {k};
        done := done + {k};
      }
    }

    /**
     * GET /inquiries: the sorted records and their count, or 500 when
     * `kv.getByPrefix` rejects with `getError`.
     */
    method List(getError: Option<string>) returns (reply: Reply)
      ensures getError.Some? ==> reply == Failed(500, "Error fetching inquiries: " + getError.value)
      ensures getError.None? ==>
        && reply.Listed? && reply.count == |reply.inquiries| == |ListedKeys()|
        && Sequences.NewestFirst(reply.inquiries, CreatedAt)
        && forall r :: multiset(reply.inquiries)[r] == |Holding(kv, ListedKeys(), r)|
    {
      if getError.Some? {
        return Failed(500, "Error fetching inquiries: " + getError.value);
      }
      var sorted := SortedInquiries();
      reply := Listed(sorted, |sorted|);
    }
  }

  // ---------------------------------------------------------------------------
  // POST /inquiries/email

  /** The fields the e-mail endpoint checks, in the order it checks them. */
  const RequiredFields: seq<string> := ["name", "email", "artType", "message"]

  predicate AllRequiredStrings(body: Body) {
    forall i :: 0 <= i < |RequiredFields| ==> NonEmptyString(Field(body, RequiredFields[i]))
  }

  /** Required field `i` is the first that is missing, empty or not a string. */
  predicate FirstInvalidAt(body: Body, i: nat) {
    && i < |RequiredFields|
    && !NonEmptyString(Field(body, RequiredFields[i]))
    && forall j :: 0 <= j < i ==> NonEmptyString(Field(body, RequiredFields[j]))
  }

  /** The loop over the required fields: the first one that fails `!body[f] || typeof body[f] !== "string"`. */
  method FirstMissingField(body: Body) returns (missing: Option<string>)
    ensures missing.None? <==> AllRequiredStrings(body)
    ensures missing.Some? ==> exists i: nat :: FirstInvalidAt(body, i) && missing.value == RequiredFields[i]
  {
    for i := 0 to |RequiredFields|
      invariant forall j :: 0 <= j < i ==> NonEmptyString(Field(body, RequiredFields[j]))
    {
      var f := RequiredFields[i];
      if !NonEmptyString(Field(body, f)) {
        assert FirstInvalidAt(body, i);
        return Some(f);
      }
    }
    return None;
  }

  const DefaultDestination := "contact@kanakartistry.com"
  const ServerSender := "KanakArtistry <no-reply@kanakartistry.com>"

  /** The inquiry as laid out in the e-mail's HTML, one rendered value per line. */
  datatype EmailFields = EmailFields(
    name: string,
    email: string,
    phone: string,
    artType: string,
    size: string,
    budget: string,
    timeline: string,
    message: string)

  /** The JSON payload posted to Resend. */
  datatype ServerEmail = ServerEmail(from: string, to: string, subject: string, html: EmailFields)

  /** The e-mail sent for a body that passed validation. */
  function EmailFor(body: Body, destination: Option<string>): (e: ServerEmail)
    ensures e.from == ServerSender
    ensures e.to == (if Present(destination) then destination.value else DefaultDestination)
    ensures e.subject == "New Inquiry from " + Text(Field(body, "name"))
    ensures e.html.name == Text(Field(body, "name")) && e.html.email == Text(Field(body, "email"))
    ensures e.html.artType == Text(Field(body, "artType")) && e.html.message == Text(Field(body, "message"))
    ensures RendersOr(e.html.phone, Field(body, "phone"), "-") && RendersOr(e.html.size, Field(body, "size"), "-")
    ensures RendersOr(e.html.budget, Field(body, "budget"), "-")
    ensures RendersOr(e.html.timeline, Field(body, "timeline"), "-")
  {
    ServerEmail(
      from := ServerSender,
      to := PresentOr(destination, DefaultDestination),
      subject := "New Inquiry from " + Text(Field(body, "name")),
      html := EmailFields(
        name := Text(Field(body, "name")),
        email := Text(Field(body, "email")),
        phone := Text(OrElse(Field(body, "phone"), "-")),
        artType := Text(Field(body, "artType")),
        size := Text(OrElse(Field(body, "size"), "-")),
        budget := Text(OrElse(Field(body, "budget"), "-")),
        timeline := Text(OrElse(Field(body, "timeline"), "-")),
        message := Text(Field(body, "message"))))
  }

  /** What the `fetch` to Resend gave: a response with its `ok` flag, or a rejection. */
  datatype ProviderReply = ProviderResponse(ok: bool) | ProviderUnreachable(reason: string)

  /**
   * POST /inquiries/email. `apiKey` and `destination` are the RESEND_API_KEY and
   * DESTINATION_EMAIL environment variables; `sent` is the payload posted to
   * Resend, if any.
   */
  method EmailInquiry(request: Request, apiKey: Option<string>, destination: Option<string>, provider: ProviderReply)
    returns (reply: Reply, sent: Option<ServerEmail>)
    ensures request.Malformed? ==> reply == Failed(500, "Error: " + request.reason) && sent.None?
    ensures request.NullBody? ==> reply == Failed(500, "Error: " + NullFieldError(RequiredFields[0])) && sent.None?
    ensures request.Parsed? && !AllRequiredStrings(request.fields) ==>
      && sent.None?
      && exists i: nat :: FirstInvalidAt(request.fields, i) && reply == Failed(400, "Missing field: " + RequiredFields[i])
    ensures request.Parsed? && AllRequiredStrings(request.fields) && !Present(apiKey) ==>
      reply == Failed(500, "RESEND_API_KEY not configured") && sent.None?
    ensures request.Parsed? && AllRequiredStrings(request.fields) && Present(apiKey) ==>
      && sent == Some(EmailFor(request.fields, destination))
      && reply == match provider
                  case ProviderResponse(ok) => if ok then Sent else Failed(500, "Failed to send email")
                  case ProviderUnreachable(reason) => Failed(500, "Error: " + reason)
  {
    if request.Malformed? {
      return Failed(500, "Error: " + request.reason), None;
    }
    if request.NullBody? {
      return Failed(500, "Error: " + NullFieldError(RequiredFields[0])), None;
    }
    var body := request.fields;
    var missing := FirstMissingField(body);
    if missing.Some? {
      return Failed(400, "Missing field: " + missing.value), None;
    }
    if !Present(apiKey) {
      return Failed(500, "RESEND_API_KEY not configured"), None;
    }
    var email := EmailFor(body, destination);
    sent := Some(email);
    match provider
    case ProviderResponse(ok) =>
      reply := if ok then Sent else Failed(500, "Failed to send email");
    case ProviderUnreachable(reason) =>
      reply := Failed(500, "Error: " + reason);
  }

  /**
   * The end-to-end case: a submission with all four required fields is stored
   * once, under an `inquiry_` key, with status "new", and can be read back; a
   * status update with a `null` body on a key that was never created is
   * answered 404, before the body is read, without a write.
   */
  method SubmissionScenario()
  {
    var store := new InquiryStore();
    var body: Body := map["name" := Str("A"), "email" := Str("a@x.com"), "artType" := Str("acrylic"), "message" := Str("hello")];
    assert HasRequiredFields(body);
    var created := store.Create(Parsed(body), 1, "k3j5x9q2a", None);
    assert created.Created? && StatusCode(created) == 200;
    var id := created.inquiryId;
    assert store.kv.Keys == {id};
    var got := store.Get(id, None);
    assert got.Found? && got.inquiry.status == Str("new") && got.inquiry.name == Str("A");
    var missingId := "inquiry_0_none";
    assert missingId !in store.kv by {
      assert id[|IdPrefix|] == '1' && missingId[|IdPrefix|] == '0';
    }
    var updated := store.UpdateStatus(missingId, NullBody, 1700000000001, None, None);
    assert StatusCode(updated) == 404 && store.kv.Keys == {id};
  }
}
