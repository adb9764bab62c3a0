/**
 * The analysis report screen: the backend's analysis record is reshaped into
 * what the page shows (suggestion lines, toxic-component rows, three disposal
 * entries, highlight badges), scores are classified into colour bands, and a
 * toggle drives the nearby-recyclers panel.
 */
module AnalysisReport {
  import opened RecyclerList

  // ---------------------------------------------------------------------------
  // The analysis record as the backend returns it (scores as integers).

  datatype DeviceInfo = DeviceInfo(name: string, kind: string)

  datatype EcoScore = EcoScore(
    repairability: int,
    recyclability: int,
    toxicity: int,
    resaleValue: int,
    environmentalImpact: string)

  datatype Component = Component(name: string, percentage: int)

  datatype Recommendations = Recommendations(
    repair: bool, repairNotes: string,
    reuse: bool, reuseNotes: string,
    recycle: bool, recycleNotes: string)

  datatype ToxicComponent = ToxicComponent(name: string, riskLevel: string, foundIn: string)

  datatype DisposalGuidelines = DisposalGuidelines(battery: string, plastic: string, general: string)

  datatype Analysis = Analysis(
    deviceInfo: DeviceInfo,
    ecoScore: EcoScore,
    components: seq<Component>,
    recommendations: Recommendations,
    toxicComponents: seq<ToxicComponent>,
    disposalGuidelines: DisposalGuidelines,
    aiSummary: string)

  // ---------------------------------------------------------------------------
  // The display record.

  datatype Scores = Scores(repairability: int, recyclability: int, toxicity: int, resaleValue: int)

  datatype Highlight = HighRecyclability | RepairFriendly | SmartSuggestions {
    function Text(): string {
      match this
      case HighRecyclability => "High Recyclability"
      case RepairFriendly => "Repair-Friendly"
      case SmartSuggestions => "Smart Suggestions"
    }

    /** The position a badge takes in the fixed order of the badge rules. */
    function Rank(): nat {
      match this
      case HighRecyclability => 0
      case RepairFriendly => 1
      case SmartSuggestions => 2
    }
  }

  datatype Suggestions = Suggestions(repair: string, reuse: string, recycle: string)

  datatype ToxicEntry = ToxicEntry(name: string, level: string, location: string)

  datatype Guideline = Guideline(title: string, description: string)

  datatype DeviceView = DeviceView(
    name: string,
    kind: string,
    scores: Scores,
    environmentalImpact: string,
    composition: seq<Component>,
    highlights: seq<Highlight>,
    suggestions: Suggestions,
    toxicComponents: seq<ToxicEntry>,
    disposalGuidelines: seq<Guideline>,
    summary: string)

  // ---------------------------------------------------------------------------
  // The projection.

  const YesPrefix: string := "Yes — "
  const NoPrefix: string := "No — "

  /** One suggestion line: the flag as "Yes" or "No", a dash, then the note. */
  function Suggestion(flag: bool, notes: string): (line: string)
    ensures flag ==> line == YesPrefix + notes
    ensures !flag ==> line == NoPrefix + notes
  {
    (if flag then "Yes" else "No") + " — " + notes
  }

  /** Different flags or different notes never give the same suggestion line. */
  lemma SuggestionInjective(f1: bool, n1: string, f2: bool, n2: string)
    requires Suggestion(f1, n1) == Suggestion(f2, n2)
    ensures f1 == f2 && n1 == n2
  {
    var line := Suggestion(f1, n1);
    assert line[0] == (if f1 then 'Y' else 'N');
    assert line[0] == (if f2 then 'Y' else 'N');
    var p := if f1 then YesPrefix else NoPrefix;
    assert n1 == line[|p|..];
    assert n2 == line[|p|..];
  }

  /** `result.toxic_components.map(...)`: one row per component, in the same order. */
  function ToxicEntries(ts: seq<ToxicComponent>): (rows: seq<ToxicEntry>)
    ensures |rows| == |ts|
    ensures forall i :: 0 <= i < |ts| ==>
      rows[i].name == ts[i].name && rows[i].level == ts[i].riskLevel && rows[i].location == ts[i].foundIn
  {
    if ts == [] then []
    else [ToxicEntry(ts[0].name, ts[0].riskLevel, ts[0].foundIn)] + ToxicEntries(ts[1..])
  }

  /** The three disposal entries, titled Battery, Plastic and General in that order. */
  function Guidelines(d: DisposalGuidelines): (gs: seq<Guideline>)
    ensures |gs| == 3
    ensures gs[0] == Guideline("Battery", d.battery)
    ensures gs[1] == Guideline("Plastic", d.plastic)
    ensures gs[2] == Guideline("General", d.general)
  {
    [Guideline("Battery", d.battery), Guideline("Plastic", d.plastic), Guideline("General", d.general)]
  }

  /** `deviceData` as first built, before any highlight is pushed. */
  function Project(result: Analysis): (view: DeviceView)
    ensures view.highlights == []
    ensures view.name == result.deviceInfo.name && view.kind == result.deviceInfo.kind
    ensures view.scores.recyclability == result.ecoScore.recyclability
    ensures view.scores.repairability == result.ecoScore.repairability
    ensures view.composition == result.components && view.summary == result.aiSummary
    ensures view.scores.toxicity == result.ecoScore.toxicity
    ensures view.scores.resaleValue == result.ecoScore.resaleValue
    ensures view.environmentalImpact == result.ecoScore.environmentalImpact
    ensures view.suggestions.repair == Suggestion(result.recommendations.repair, result.recommendations.repairNotes)
    ensures view.suggestions.reuse == Suggestion(result.recommendations.reuse, result.recommendations.reuseNotes)
    ensures view.suggestions.recycle == Suggestion(result.recommendations.recycle, result.recommendations.recycleNotes)
    ensures view.toxicComponents == ToxicEntries(result.toxicComponents)
    ensures view.disposalGuidelines == Guidelines(result.disposalGuidelines)
  {
    var r := result.recommendations;
    DeviceView(
      result.deviceInfo.name,
      result.deviceInfo.kind,
      Scores(result.ecoScore.repairability, result.ecoScore.recyclability,
             result.ecoScore.toxicity, result.ecoScore.resaleValue),
      result.ecoScore.environmentalImpact,
      result.components,
      [],
      Suggestions(Suggestion(r.repair, r.repairNotes),
                  Suggestion(r.reuse, r.reuseNotes),
                  Suggestion(r.recycle, r.recycleNotes)),
      ToxicEntries(result.toxicComponents),
      Guidelines(result.disposalGuidelines),
      result.aiSummary)
  }

  /**
   * Builds the display record and then pushes the highlight badges onto it:
   * a badge per score threshold that is met, and Smart Suggestions always last.
   */
  method Shape(result: Analysis) returns (view: DeviceView)
    ensures view == Project(result).(highlights := view.highlights)
    ensures HighRecyclability in view.highlights <==> result.ecoScore.recyclability >= 80
    ensures RepairFriendly in view.highlights <==> result.ecoScore.repairability >= 70
    ensures 1 <= |view.highlights| <= 3
    ensures view.highlights[|view.highlights| - 1] == SmartSuggestions
    ensures forall i, j :: 0 <= i < j < |view.highlights| ==> view.highlights[i].Rank() < view.highlights[j].Rank()
  {
    view := Project(result);
    if view.scores.recyclability >= 80 {
      view := view.(highlights := view.highlights + [HighRecyclability]);
    }
    if view.scores.repairability >= 70 {
      view := view.(highlights := view.highlights + [RepairFriendly]);
    }
    view := view.(highlights := view.highlights + [SmartSuggestions]);
  }

  // ---------------------------------------------------------------------------
  // Score colours.

  datatype Band = Green | Yellow | Red {
    function ClassName(): string {
      match this
      case Green => "bg-green-500"
      case Yellow => "bg-yellow-500"
      case Red => "bg-red-500"
    }
  }

  /** `getScoreColor`: green from 70, yellow from 50, red below. */
  function ScoreColor(score: int): (band: Band)
    ensures band == Green <==> score >= 70
    ensures band == Yellow <==> 50 <= score < 70
    ensures band == Red <==> score < 50
  {
    if score >= 70 then Green
    else if score >= 50 then Yellow
    else Red
  }

  function Severity(b: Band): nat {
    match b
    case Green => 0
    case Yellow => 1
    case Red => 2
  }

  /** A higher score never gets a more severe colour. */
  lemma ScoreColorMonotone(lo: int, hi: int)
    requires lo <= hi
    ensures Severity(ScoreColor(hi)) <= Severity(ScoreColor(lo))
  {
  }

  // ---------------------------------------------------------------------------
  // The nearby-recyclers panel.

  /** The panel's three pieces of state: the fetched list, whether it is shown, whether a lookup runs. */
  datatype PanelState = PanelState(recyclers: seq<Recycler>, show: bool, loading: bool)

  /** What can happen to the panel: a click, or the completion of a lookup step. */
  datatype PanelEvent =
    | Toggle(geolocationSupported: bool)
    | LocationFailed
    | FetchSucceeded(list: seq<Recycler>)
    | FetchFailed

  const InitialPanel: PanelState := PanelState([], false, false)

  /** The effect of one event on the panel. */
  function Step(s: PanelState, e: PanelEvent): (t: PanelState)
    ensures t.recyclers == if e.FetchSucceeded? then e.list else s.recyclers
    ensures t.show <==> e.FetchSucceeded? || (s.show && !e.Toggle?)
    ensures t.loading <==> e.Toggle? && (s.loading || (!s.show && e.geolocationSupported))
  {
    match e
    case Toggle(supported) =>
      if s.show then s.(show := false)
      else if !supported then s
      else s.(loading := true)
    case LocationFailed => s.(loading := false)
    case FetchSucceeded(list) => PanelState(list, true, false)
    case FetchFailed => s.(loading := false)
  }

  /** The panel after a sequence of events, applied from first to last. */
  function Run(s: PanelState, events: seq<PanelEvent>): (t: PanelState)
    ensures (forall i :: 0 <= i < |events| ==> !IsFetch(events[i])) ==> t.recyclers == s.recyclers
    ensures events != [] && IsFetch(events[|events| - 1]) ==> t.show && !t.loading
    decreases |events|
  {
    if events == [] then s
    else Step(Run(s, events[..|events| - 1]), events[|events| - 1])
  }

  predicate IsFetch(e: PanelEvent) {
    e.FetchSucceeded?
  }

  /** The list of the last successful fetch, or the empty list before any. */
  function LastFetched(events: seq<PanelEvent>): seq<Recycler>
    decreases |events|
  {
    if events == [] then []
    else if events[|events| - 1].FetchSucceeded? then events[|events| - 1].list
    else LastFetched(events[..|events| - 1])
  }

  /** The panel always holds the list of the most recent successful fetch. */
  lemma {:induction false} PanelHoldsLastFetched(events: seq<PanelEvent>)
    ensures Run(InitialPanel, events).recyclers == LastFetched(events)
    decreases |events|
  {
    if events != [] {
      PanelHoldsLastFetched(events[..|events| - 1]);
    }
  }

  /**
   * The panel is never shown unless some fetch succeeded: failures leave it
   * collapsed. A failure the server reports as a 500 reply still reaches the
   * client as a successful fetch (with no list in it), so it counts as a
   * `FetchSucceeded` here and does show the panel.
   */
  lemma {:induction false} ShownOnlyAfterFetch(s: PanelState, events: seq<PanelEvent>)
    requires !s.show
    requires forall i :: 0 <= i < |events| ==> !IsFetch(events[i])
    ensures !Run(s, events).show
    decreases |events|
  {
    if events != [] {
      ShownOnlyAfterFetch(s, events[..|events| - 1]);
    }
  }

  /** After any completion, failed or not, the loading indicator is off. */
  lemma CompletionClearsLoading(s: PanelState, e: PanelEvent)
    requires !e.Toggle?
    ensures !Step(s, e).loading
  {
  }

  /** The panel state with its setters; the event handlers mirror the callbacks of the component. */
  class RecyclerPanel {
    var recyclers: seq<Recycler>
    var show: bool
    var loading: bool

    function State(): PanelState
      reads this
    {
      PanelState(recyclers, show, loading)
    }

    constructor ()
      ensures State() == InitialPanel
    {
      recyclers := [];
      show := false;
      loading := false;
    }

    /**
     * The click handler. A shown list is collapsed without a lookup; without
     * geolocation nothing changes; otherwise the loading flag is set and a
     * position query starts (`locating`).
     */
    method HandleNearbyRecyclers(geolocationSupported: bool) returns (locating: bool)
      modifies this
      ensures State() == Step(old(State()), Toggle(geolocationSupported))
      ensures locating <==> !old(show) && geolocationSupported
      ensures old(show) ==> !show && recyclers == old(recyclers) && loading == old(loading)
      ensures !old(show) && !geolocationSupported ==> State() == old(State())
      ensures locating ==> loading && show == old(show) && recyclers == old(recyclers)
    {
      if show {
        show := false;
        return false;
      }
      if !geolocationSupported {
        return false;
      }
      loading := true;
      locating := true;
    }

    /** The geolocation error callback. */
    method OnLocationError()
      modifies this
      ensures State() == Step(old(State()), LocationFailed)
      ensures !loading && show == old(show) && recyclers == old(recyclers)
    {
      loading := false;
    }

    /** The fetch succeeded: store the list, show it, and (in `finally`) stop loading. */
    method OnRecyclersFetched(list: seq<Recycler>)
      modifies this
      ensures State() == Step(old(State()), FetchSucceeded(list))
      ensures recyclers == list && show && !loading
    {
      recyclers := list;
      show := true;
      loading := false;
    }

    /** The fetch failed: only the `finally` clause runs. */
    method OnFetchError()
      modifies this
      ensures State() == Step(old(State()), FetchFailed)
      ensures !loading && show == old(show) && recyclers == old(recyclers)
    {
      loading := false;
    }
  }
}
