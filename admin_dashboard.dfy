/**
 * The inquiry dashboard: the art-type labels, the timeline text, the header
 * count, which panel is shown, and the state the inquiry fetch walks
 * through. What the `queries` select gives back is a parameter.
 */
module AdminDashboard {
  import opened Wrappers
  import opened Strings
  import opened Rows
  import InquiryModal
  import App

  /** The labels `getArtTypeName` knows. */
  const ArtTypeNames: map<string, string> := map[
    "mixed-media" := "Mixed Media Painting",
    "relief" := "Relief Art",
    "acrylic" := "Acrylic Painting",
    "textured" := "Contemporary Textured Art",
    "madhubani" := "Madhubani Painting",
    "warli" := "Warli Painting",
    "gond" := "Gond Art",
    "lippan" := "Lippan Art",
    "other" := "Other / Not Sure"
  ]

  /** `types[artType] || artType`. */
  function ArtTypeName(artType: string): (shown: string)
    ensures artType in ArtTypeNames && ArtTypeNames[artType] != "" ==> shown == ArtTypeNames[artType]
    ensures artType !in ArtTypeNames ==> shown == artType
  {
    if artType in ArtTypeNames && ArtTypeNames[artType] != "" then ArtTypeNames[artType] else artType
  }

  /** A key is shown as it is exactly when it is not one of the nine known keys: every known key gets a label of its own. */
  lemma ArtTypeNameFixesOnlyUnknownKeys(artType: string)
    ensures ArtTypeName(artType) == artType <==> artType !in ArtTypeNames
  {
    if artType in ArtTypeNames {
      assert |ArtTypeNames[artType]| != |artType|;
    }
  }

  /** A "similar to" art type from the gallery ends in a quote, which no known key does, so it is shown verbatim. */
  lemma SimilarArtTypeShownVerbatim(title: string, medium: string)
    ensures ArtTypeName(App.SimilarArtwork(title, medium)) == App.SimilarArtwork(title, medium)
  {
    var s := App.SimilarArtwork(title, medium);
    var n := |medium + App.SimilarInfix|;
    assert s[n..] == title + "\"";
    assert s[|s| - 1] == s[n..][|s| - 1 - n] == '"';
  }

  /** `timeline.replace('-', ' ')`: the first dash becomes a space; every other character, later dashes included, is kept. */
  function TimelineDisplay(timeline: string): (d: string)
    ensures |d| == |timeline|
    ensures forall j :: 0 <= j < |timeline| && timeline[j] != '-' ==> d[j] == timeline[j]
    ensures forall j :: 0 <= j < |timeline| && timeline[j] == '-' ==>
      d[j] == if forall k :: 0 <= k < j ==> timeline[k] != '-' then ' ' else '-'
  {
    assert forall j: nat :: j < |timeline| ==> (OccursAt(timeline, "-", j) <==> timeline[j] == '-');
    var d := ReplaceFirst(timeline, "-", " ");
    match IndexOf(timeline, "-")
    case None => d
    case Some(i) =>
      assert timeline[i] == '-';
      assert d == timeline[..i] + " " + timeline[i + 1..];
      assert forall j :: 0 <= j < |timeline| && j != i ==> d[j] == timeline[j];
      d
  }

  /** The timeline line is shown only for a non-empty timeline. */
  function TimelineLine(timeline: string): (line: Option<string>)
    ensures line.Some? <==> timeline != ""
    ensures line.Some? ==> line.value == TimelineDisplay(timeline)
  {
    if timeline != "" then Some(TimelineDisplay(timeline)) else None
  }

  /** The form's "1-2 weeks" choice is shown as `1 2-weeks`: only its first dash is replaced. */
  lemma TimelineFirstDashOnly()
    ensures TimelineDisplay("1-2-weeks") == "1 2-weeks"
  {
    NoOccurrenceWithoutFirstChar("1", "-", "2-weeks");
    ReplaceFirstSplit("1", "-", " ", "2-weeks");
    assert "1" + "-" + "2-weeks" == "1-2-weeks";
    assert "1" + " " + "2-weeks" == "1 2-weeks";
  }

  /** `inquiries.length === 1 ? 'inquiry' : 'inquiries'`. */
  function CountNoun(count: nat): (noun: string)
    ensures noun == "inquiry" <==> count == 1
    ensures noun == "inquiries" <==> count != 1
  {
    if count == 1 then "inquiry" else "inquiries"
  }

  /** The header line: `<count> inquiry received` or `<count> inquiries received`. */
  function HeaderText(count: nat): (text: string)
    ensures IsPrefix(NatToString(count) + " " + CountNoun(count), text)
  {
    var head := NatToString(count) + " " + CountNoun(count);
    assert (head + " received")[..|head|] == head;
    head + " received"
  }

  /** The header count reads back as the number of inquiries held. */
  lemma HeaderCountReadsBack(count: nat)
    ensures var text := HeaderText(count);
      var digits := NatToString(count);
      IsPrefix(digits, text)
      && (forall i :: 0 <= i < |digits| ==> IsDigit(text[i]))
      && DigitsValue(text[..|digits|]) == count
  {
    var text := HeaderText(count);
    var digits := NatToString(count);
    assert text[..|digits|] == digits by {
      assert IsPrefix(digits + " " + CountNoun(count), text);
      assert (digits + " " + CountNoun(count))[..|digits|] == digits;
    }
    NatToStringRoundTrip(count);
  }

  /** The component's state. */
  datatype DashboardState = DashboardState(
    inquiries: seq<QueryRow>,
    isLoading: bool,
    error: Option<string>,
    selected: Option<QueryRow>)

  const InitialState := DashboardState([], false, None, None)

  /** What the select gave: its rows (`null` as `None`), or the error it threw or reported. */
  datatype FetchOutcome = Answered(data: Option<seq<QueryRow>>) | Failed(thrown: InquiryModal.Thrown)

  const DefaultFetchError := "Failed to fetch inquiries"

  /** `err instanceof Error ? err.message : 'Failed to fetch inquiries'`. */
  function FetchErrorText(t: InquiryModal.Thrown): string {
    match t
    case ErrorThrown(m) => m
    case NonErrorThrown => DefaultFetchError
  }

  /** The start of `fetchInquiries`: loading, and no error. */
  function FetchBegun(s: DashboardState): (t: DashboardState)
    ensures t.isLoading && t.error.None?
    ensures t.inquiries == s.inquiries && t.selected == s.selected
  {
    s.(isLoading := true, error := None)
  }

  /**
   * The end of `fetchInquiries`: the rows (none for `null`) replace the list,
   * or the error is recorded and the list is kept; loading ends either way.
   */
  function FetchFinished(s: DashboardState, outcome: FetchOutcome): (t: DashboardState)
    ensures !t.isLoading && t.selected == s.selected
    ensures outcome.Answered? ==> t.inquiries == outcome.data.GetOr([]) && t.error == s.error
    ensures outcome.Failed? ==> t.inquiries == s.inquiries && t.error == Some(FetchErrorText(outcome.thrown))
  {
    match outcome
    case Answered(data) => s.(inquiries := data.GetOr([]), isLoading := false)
    case Failed(thrown) => s.(error := Some(FetchErrorText(thrown)), isLoading := false)
  }

  /** One whole fetch: the rows on success with no error left over, the old list and an error message on failure. */
  lemma FetchOutcomes(s: DashboardState, outcome: FetchOutcome)
    ensures var t := FetchFinished(FetchBegun(s), outcome);
      !t.isLoading
      && (outcome.Answered? ==> t.inquiries == outcome.data.GetOr([]) && t.error.None?)
      && (outcome.Failed? ==> t.inquiries == s.inquiries && t.error == Some(FetchErrorText(outcome.thrown)))
  {
  }

  /** The panel shown. */
  datatype Panel = Hidden | Spinner | ErrorPanel(message: string) | EmptyPanel | InquiryList(rows: seq<QueryRow>)

  /** The error is shown when it is a non-empty string (`error ?` tests truthiness). */
  predicate ShowsError(error: Option<string>) {
    error.Some? && error.value != ""
  }

  /** Nothing when closed, then loading, then the error, then "no inquiries yet", then the list. */
  function PanelOf(isOpen: bool, s: DashboardState): (p: Panel)
    ensures p.Hidden? <==> !isOpen
    ensures p.Spinner? <==> isOpen && s.isLoading
    ensures p.ErrorPanel? <==> isOpen && !s.isLoading && ShowsError(s.error)
    ensures p.ErrorPanel? ==> p.message == s.error.value
    ensures p.EmptyPanel? <==> isOpen && !s.isLoading && !ShowsError(s.error) && |s.inquiries| == 0
    ensures p.InquiryList? <==> isOpen && !s.isLoading && !ShowsError(s.error) && |s.inquiries| > 0
    ensures p.InquiryList? ==> p.rows == s.inquiries
  {
    if !isOpen then Hidden
    else if s.isLoading then Spinner
    else if ShowsError(s.error) then ErrorPanel(s.error.value)
    else if |s.inquiries| == 0 then EmptyPanel
    else InquiryList(s.inquiries)
  }

  /**
   * A failed refresh normally replaces the list with the error panel, but an
   * `Error` with an empty message is not shown, and the previous list stays
   * on screen as if the refresh had worked.
   */
  lemma EmptyErrorMessageShowsOldList(s: DashboardState)
    requires |s.inquiries| > 0
    ensures PanelOf(true, FetchFinished(FetchBegun(s), Failed(InquiryModal.ErrorThrown("")))) == InquiryList(s.inquiries)
  {
  }

  /** The `AdminDashboard` component's state fields. */
  class Dashboard {
    var inquiries: seq<QueryRow>
    var isLoading: bool
    var error: Option<string>
    var selected: Option<QueryRow>

    function State(): DashboardState
      reads this
    {
      DashboardState(inquiries, isLoading, error, selected)
    }

    constructor ()
      ensures State() == InitialState
    {
      inquiries := [];
      isLoading := false;
      error := None;
      selected := None;
    }

    /** `setIsLoading(true); setError(null)`, before the select is awaited. */
    method BeginFetch()
      modifies this
      ensures State() == FetchBegun(old(State()))
    {
      isLoading := true;
      error := None;
    }

    /** The rest of `fetchInquiries`, once the select has answered or thrown. */
    method FinishFetch(outcome: FetchOutcome)
      modifies this
      ensures State() == FetchFinished(old(State()), outcome)
    {
      match outcome {
        case Answered(data) =>
          inquiries := data.GetOr([]);
        case Failed(thrown) =>
          error := Some(FetchErrorText(thrown));
      }
      isLoading := false;
    }

    /** Clicking a card opens its details. */
    method SelectInquiry(row: QueryRow)
      modifies this
      ensures selected == Some(row)
      ensures inquiries == old(inquiries) && isLoading == old(isLoading) && error == old(error)
    {
      selected := Some(row);
    }

    /** The backdrop or the close button of the details closes them. */
    method CloseDetails()
      modifies this
      ensures selected.None?
      ensures inquiries == old(inquiries) && isLoading == old(isLoading) && error == old(error)
    {
      selected := None;
    }
  }
}
