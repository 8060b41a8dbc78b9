/**
 * The daily digest (the `send-daily-report` edge function): select the last
 * 24 hours of inquiries and visits, count them, render the report and post it
 * to Resend. The clock, the two table reads and the provider's answer are
 * parameters; the report is a sequence of blocks rather than HTML text.
 */
module DailyReport {
  import opened Wrappers
  import opened Strings
  import opened Rows
  import Sequences
  import Js

  const DayMs: int := 24 * 60 * 60 * 1000

  /** `.gte(column, twentyFourHoursAgo)`: a row is selected when it is no older than 24 hours; there is no upper bound. */
  predicate InWindow(t: int, now: int) {
    t >= now - DayMs
  }

  /** The `queries` select: in-window rows, newest `submitted_at` first. */
  function SelectQueries(table: seq<QueryRow>, now: int): (r: seq<QueryRow>)
    ensures forall q :: q in r <==> q in table && InWindow(q.submitted_at, now)
    ensures forall q :: multiset(r)[q] == if InWindow(q.submitted_at, now) then multiset(table)[q] else 0
    ensures Sequences.NewestFirst(r, SubmittedAt)
  {
    var inWindow := Sequences.Filter(table, (q: QueryRow) => InWindow(q.submitted_at, now));
    Sequences.SortNewestFirst(inWindow, SubmittedAt)
  }

  /** The `visitors` select: in-window rows. */
  function SelectVisitors(table: seq<VisitorRow>, now: int): (r: seq<VisitorRow>)
    ensures forall v :: v in r <==> v in table && InWindow(v.visited_at, now)
    ensures forall v :: multiset(r)[v] == if InWindow(v.visited_at, now) then multiset(table)[v] else 0
  {
    Sequences.Filter(table, (v: VisitorRow) => InWindow(v.visited_at, now))
  }

  /** `data` of each select: the rows, or `None` when the select returned `null`. */
  function WindowQueries(table: Option<seq<QueryRow>>, now: int): Option<seq<QueryRow>> {
    match table
    case None => None
    case Some(rows) => Some(SelectQueries(rows, now))
  }

  function WindowVisitors(table: Option<seq<VisitorRow>>, now: int): Option<seq<VisitorRow>> {
    match table
    case None => None
    case Some(rows) => Some(SelectVisitors(rows, now))
  }

  datatype Stats = Stats(uniqueVisitors: nat, totalVisits: nat, queriesCount: nat)

  /** `new Set(visitors.map(v => v.ip_address))`. */
  function DistinctIps(visitors: seq<VisitorRow>): set<string> {
    set v | v in visitors :: v.ip_address
  }

  /** There are never more distinct addresses than visits. */
  lemma {:induction false} DistinctIpsAtMostVisits(visitors: seq<VisitorRow>)
    ensures |DistinctIps(visitors)| <= |visitors|
  {
    if visitors != [] {
      var rest := visitors[1..];
      DistinctIpsAtMostVisits(rest);
      assert visitors == [visitors[0]] + rest;
      assert DistinctIps(visitors) == DistinctIps(rest) + {visitors[0].ip_address};
    }
  }

  /** The three counts; a select that returned no data counts as zero rows. */
  function ComputeStats(visitors: Option<seq<VisitorRow>>, queries: Option<seq<QueryRow>>): (s: Stats)
    ensures s.uniqueVisitors <= s.totalVisits
    ensures visitors.None? ==> s.uniqueVisitors == 0 && s.totalVisits == 0
    ensures visitors.Some? ==> s.uniqueVisitors == |DistinctIps(visitors.value)| && s.totalVisits == |visitors.value|
    ensures s.queriesCount == if queries.Some? then |queries.value| else 0
  {
    match visitors
    case None => Stats(0, 0, if queries.Some? then |queries.value| else 0)
    case Some(vs) =>
      DistinctIpsAtMostVisits(vs);
      Stats(|DistinctIps(vs)|, |vs|, if queries.Some? then |queries.value| else 0)
  }

  /** Unique visitors are counted by address, not by row: three visits from one address and one from another are two visitors. */
  lemma SharedAddressCountsOnce(a: string, b: string, t: int)
    requires a != b
    ensures var vs := [VisitorRow(a, t, ""), VisitorRow(a, t, ""), VisitorRow(a, t, ""), VisitorRow(b, t, "")];
            ComputeStats(Some(vs), Some([])) == Stats(2, 4, 0)
  {
    var vs := [VisitorRow(a, t, ""), VisitorRow(a, t, ""), VisitorRow(a, t, ""), VisitorRow(b, t, "")];
    assert DistinctIps(vs) == {a, b} by {
      assert vs[0] in vs && vs[3] in vs;
    }
  }

  /** One inquiry card as rendered; `submittedAt` is shown through a locale formatter. */
  datatype Card = Card(
    name: string,
    email: string,
    phone: string,
    artType: string,
    size: string,
    budget: string,
    timeline: string,
    message: string,
    submittedAt: int)

  /** The report's parts, in document order. */
  datatype Block =
    | Preamble                    // doctype, styles and the dated header
    | StatBoxes(stats: Stats)
    | NoNewInquiries
    | InquiriesHeading
    | InquiryCard(card: Card)
    | Footer

  /** The card for one inquiry: email and message have no fallback, empty optional columns read `N/A`, an empty art type `Not specified`. */
  function CardFor(q: QueryRow): (c: Card)
    ensures c.name == q.name && c.email == q.email && c.message == q.message && c.submittedAt == q.submitted_at
    ensures Js.RendersOr(c.phone, Js.Str(q.phone), "N/A") && Js.RendersOr(c.size, Js.Str(q.size), "N/A")
    ensures Js.RendersOr(c.budget, Js.Str(q.budget), "N/A") && Js.RendersOr(c.timeline, Js.Str(q.timeline), "N/A")
    ensures Js.RendersOr(c.artType, Js.Str(q.art_type), "Not specified")
  {
    Card(
      name := q.name,
      email := q.email,
      phone := Js.Or(q.phone, "N/A"),
      artType := Js.Or(q.art_type, "Not specified"),
      size := Js.Or(q.size, "N/A"),
      budget := Js.Or(q.budget, "N/A"),
      timeline := Js.Or(q.timeline, "N/A"),
      message := q.message,
      submittedAt := q.submitted_at)
  }

  function CardBlocks(queries: seq<QueryRow>): seq<Block> {
    seq(|queries|, i requires 0 <= i < |queries| => InquiryCard(CardFor(queries[i])))
  }

  /** The shape of a report: the "no new inquiries" notice when there are none, otherwise one card per inquiry. */
  predicate RendersReport(html: seq<Block>, stats: Stats, queries: seq<QueryRow>) {
    if stats.queriesCount == 0 then
      html == [Preamble, StatBoxes(stats), NoNewInquiries, Footer]
    else
      html == [Preamble, StatBoxes(stats), InquiriesHeading] + CardBlocks(queries) + [Footer]
  }

  /** `emailHTML` grown with `+=`: preamble and statistics, then the notice or the cards, then the footer. */
  method RenderReport(stats: Stats, queries: seq<QueryRow>) returns (html: seq<Block>)
    requires stats.queriesCount == |queries|
    ensures RendersReport(html, stats, queries)
  {
    html := [Preamble, StatBoxes(stats)];
    if stats.queriesCount == 0 {
      html := html + [NoNewInquiries];
    } else {
      html := html + [InquiriesHeading];
      for i := 0 to |queries|
        invariant html == [Preamble, StatBoxes(stats), InquiriesHeading] + CardBlocks(queries[..i])
      {
        assert CardBlocks(queries[..i + 1]) == CardBlocks(queries[..i]) + [InquiryCard(CardFor(queries[i]))];
        html := html + [InquiryCard(CardFor(queries[i]))];
      }
      assert queries[..|queries|] == queries;
    }
    html := html + [Footer];
  }

  /** The cards of a report, in order. */
  function Cards(html: seq<Block>): seq<Card>
    decreases |html|
  {
    if html == [] then []
    else (if html[0].InquiryCard? then [html[0].card] else []) + Cards(html[1..])
  }

  lemma {:induction false} CardsConcat(a: seq<Block>, b: seq<Block>)
    ensures Cards(a + b) == Cards(a) + Cards(b)
    decreases |a|
  {
    if a == [] {
      assert a + b == b;
    } else {
      assert (a + b)[0] == a[0];
      assert (a + b)[1..] == a[1..] + b;
      CardsConcat(a[1..], b);
    }
  }

  lemma {:induction false} CardsOfCardBlocks(queries: seq<QueryRow>)
    ensures Cards(CardBlocks(queries)) == seq(|queries|, i requires 0 <= i < |queries| => CardFor(queries[i]))
    decreases |queries|
  {
    if queries != [] {
      assert CardBlocks(queries)[1..] == CardBlocks(queries[1..]);
      CardsOfCardBlocks(queries[1..]);
    }
  }

  /** Blocks that are not cards contribute no card. */
  lemma {:induction false} NoCardBlocks(html: seq<Block>)
    requires forall i :: 0 <= i < |html| ==> !html[i].InquiryCard?
    ensures Cards(html) == []
    decreases |html|
  {
    if html != [] {
      NoCardBlocks(html[1..]);
    }
  }

  /** The empty report carries no card. */
  lemma EmptyReportCards(stats: Stats)
    ensures Cards([Preamble, StatBoxes(stats), NoNewInquiries, Footer]) == []
  {
    NoCardBlocks([Preamble, StatBoxes(stats), NoNewInquiries, Footer]);
  }

  /** A report with inquiries carries exactly the cards of its card blocks. */
  lemma FilledReportCards(stats: Stats, queries: seq<QueryRow>)
    ensures Cards([Preamble, StatBoxes(stats), InquiriesHeading] + CardBlocks(queries) + [Footer])
         == Cards(CardBlocks(queries))
  {
    var head := [Preamble, StatBoxes(stats), InquiriesHeading];
    CardsConcat(head + CardBlocks(queries), [Footer]);
    CardsConcat(head, CardBlocks(queries));
    NoCardBlocks(head);
    NoCardBlocks([Footer]);
  }

  /**
   * A rendered report holds exactly one card per inquiry, in the inquiries'
   * order, and shows the "no new inquiries" notice exactly when there are none.
   */
  lemma ReportCards(html: seq<Block>, stats: Stats, queries: seq<QueryRow>)
    requires stats.queriesCount == |queries|
    requires RendersReport(html, stats, queries)
    ensures Cards(html) == seq(|queries|, i requires 0 <= i < |queries| => CardFor(queries[i]))
    ensures NoNewInquiries in html <==> |queries| == 0
  {
    if |queries| == 0 {
      EmptyReportCards(stats);
    } else {
      FilledReportCards(stats, queries);
      CardsOfCardBlocks(queries);
      assert NoNewInquiries !in CardBlocks(queries);
    }
  }

  /** `queriesCount === 1 ? 'Inquiry' : 'Inquiries'`. */
  function InquiryNoun(n: nat): (w: string)
    ensures w in {"Inquiry", "Inquiries"}
    ensures w == "Inquiry" <==> n == 1
  {
    if n == 1 then "Inquiry" else "Inquiries"
  }

  const SubjectLead := "\U{1F4CA} Daily Report: "

  const SubjectTail := " Visitors"

  /** The subject line: the lead, the inquiry count and noun, then the visitor count. */
  function Subject(stats: Stats): (s: string)
    ensures IsPrefix(SubjectLead, s)
    ensures |s| >= |SubjectTail| && s[|s| - |SubjectTail|..] == SubjectTail
  {
    var middle := NatToString(stats.queriesCount) + " " + InquiryNoun(stats.queriesCount)
      + " | " + NatToString(stats.uniqueVisitors);
    var s := SubjectLead + middle + SubjectTail;
    assert s[..|SubjectLead|] == SubjectLead;
    assert s[|s| - |SubjectTail|..] == SubjectTail;
    s
  }

  /** A string made of decimal digits only, such as a count written into a message. */
  predicate AllDigits(s: string) {
    forall i :: 0 <= i < |s| ==> IsDigit(s[i])
  }

  /**
   * The subject reads back completely: after its lead come the inquiry count in
   * decimal, the noun that agrees with it (`Inquiry` for exactly one, otherwise
   * `Inquiries`), and after ` | ` the unique-visitor count in decimal.
   */
  lemma SubjectReadsBack(stats: Stats)
    ensures exists d1: string, noun: string, d2: string ::
      && Subject(stats) == SubjectLead + d1 + " " + noun + " | " + d2 + " Visitors"
      && AllDigits(d1) && DigitsValue(d1) == stats.queriesCount
      && AllDigits(d2) && DigitsValue(d2) == stats.uniqueVisitors
      && (noun == "Inquiry" <==> stats.queriesCount == 1)
      && (noun == "Inquiries" <==> stats.queriesCount != 1)
  {
    var d1 := NatToString(stats.queriesCount);
    var d2 := NatToString(stats.uniqueVisitors);
    NatToStringRoundTrip(stats.queriesCount);
    NatToStringRoundTrip(stats.uniqueVisitors);
    assert Subject(stats) == SubjectLead + d1 + " " + InquiryNoun(stats.queriesCount) + " | " + d2 + " Visitors";
  }

  const ReportSender := "KanakArtistry <onboarding@resend.dev>"
  const ReportRecipient := "has132006@gmail.com"

  /** The JSON payload posted to Resend. */
  datatype ReportEmail = ReportEmail(from: string, to: string, subject: string, html: seq<Block>)

  /** What `response.json()` gives on a successful send: the message id, if any, or a parse failure. */
  datatype JsonBody = Unparseable(reason: string) | Json(id: Option<string>)

  /** What the `fetch` to Resend gave: a response (its `ok` flag, text and JSON body), or a rejection. */
  datatype ProviderReply = Unreachable(reason: string) | Http(ok: bool, text: string, body: JsonBody)

  /** The function's JSON response: `{ success: true, emailId, stats }` with 200, or `{ success: false, error }` with 500. */
  datatype ReportResponse = ReportSent(emailId: Option<string>, stats: Stats) | ReportFailed(error: string)

  function HttpStatus(r: ReportResponse): int {
    if r.ReportSent? then 200 else 500
  }

  /** The response once the report has been posted: success needs an ok status and a readable body. */
  function ResponseFor(provider: ProviderReply, stats: Stats): (r: ReportResponse)
    ensures r.ReportSent? <==> provider.Http? && provider.ok && provider.body.Json?
    ensures r.ReportSent? ==> r.stats == stats && r.emailId == provider.body.id
    ensures provider.Http? && !provider.ok ==> r == ReportFailed("Resend API error: " + provider.text)
    ensures HttpStatus(r) == 500 <==> !r.ReportSent?
  {
    match provider
    case Unreachable(reason) => ReportFailed(reason)
    case Http(ok, text, body) =>
      if !ok then ReportFailed("Resend API error: " + text)
      else match body
        case Unparseable(reason) => ReportFailed(reason)
        case Json(id) => ReportSent(id, stats)
  }

  /** The errors the Supabase client's constructor throws for a missing URL or key. */
  const MissingUrlError := "supabaseUrl is required."
  const MissingKeyError := "supabaseKey is required."

  /**
   * One run of the function at time `now`. `supabaseUrl` and `serviceKey` are
   * the SUPABASE_URL and SUPABASE_SERVICE_ROLE_KEY variables; when either is
   * unusable, creating the client throws and the run answers 500 without
   * sending anything. `queryTable` and `visitorTable` are the two tables
   * (`None` when a select returns no data); `email` is the payload posted to
   * Resend, if any.
   */
  method SendDailyReport(now: int, supabaseUrl: Option<string>, serviceKey: Option<string>,
                         queryTable: Option<seq<QueryRow>>, visitorTable: Option<seq<VisitorRow>>,
                         provider: ProviderReply)
    returns (email: Option<ReportEmail>, response: ReportResponse)
    ensures !Js.Present(supabaseUrl) ==> email.None? && response == ReportFailed(MissingUrlError)
    ensures Js.Present(supabaseUrl) && !Js.Present(serviceKey) ==>
      email.None? && response == ReportFailed(MissingKeyError)
    ensures email.Some? <==> Js.Present(supabaseUrl) && Js.Present(serviceKey)
    ensures email.Some? ==>
            var queries := WindowQueries(queryTable, now);
            var stats := ComputeStats(WindowVisitors(visitorTable, now), queries);
            && email.value.from == ReportSender && email.value.to == ReportRecipient
            && email.value.subject == Subject(stats)
            && RendersReport(email.value.html, stats, queries.GetOr([]))
            && response == ResponseFor(provider, stats)
  {
    if !Js.Present(supabaseUrl) {
      return None, ReportFailed(MissingUrlError);
    }
    if !Js.Present(serviceKey) {
      return None, ReportFailed(MissingKeyError);
    }
    var queries := WindowQueries(queryTable, now);
    var visitors := WindowVisitors(visitorTable, now);
    var stats := ComputeStats(visitors, queries);
    var html := RenderReport(stats, queries.GetOr([]));
    email := Some(ReportEmail(ReportSender, ReportRecipient, Subject(stats), html));
    response := ResponseFor(provider, stats);
  }
}
