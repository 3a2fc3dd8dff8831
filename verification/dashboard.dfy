/**
 * The SimilarWeb-style dashboard: a fetch whose body is stored verbatim, the line and
 * pie charts projected from its key-ordered objects, and the display fallbacks of the
 * metric cards and keyword chips.
 */
module Dashboard {
  import opened Wrappers
  import opened Http
  import opened View
  import opened Numerals

  const FetchErrorMessage := "Failed to fetch data. Please try again."
  const VisitsLegend := "Monthly Visits"
  const SourcesLegend := "Traffic Sources"
  const NotAvailable := "N/A"

  /** A JSON object as its entries, in the order `Object.keys` enumerates them. */
  type Entries<V> = seq<(string, V)>

  datatype Engagement = Engagement(Visits: Option<real>, TimeOnSite: Option<real>, PagePerVisit: Option<real>)
  datatype GlobalRankInfo = GlobalRankInfo(Rank: Option<int>)
  datatype CountryShare = CountryShare(CountryCode: string, Name: string, Value: real)
  datatype Keyword = Keyword(Name: string, Volume: Option<int>)

  /** The parsed response body; every property may be missing. */
  datatype TrafficReport = TrafficReport(
    EstimatedMonthlyVisits: Option<Entries<real>>,
    Engagments: Option<Engagement>,
    GlobalRank: Option<GlobalRankInfo>,
    TrafficSources: Option<Entries<real>>,
    TopCountryShares: Option<seq<CountryShare>>,
    TopKeywords: Option<seq<Keyword>>)

  /** `Object.keys(o)`. */
  function Keys<V>(o: Entries<V>): (ks: seq<string>)
    ensures |ks| == |o|
    ensures forall i :: 0 <= i < |o| ==> ks[i] == o[i].0
  {
    if o == [] then [] else [o[0].0] + Keys(o[1..])
  }

  /** `Object.values(o)`. */
  function Values<V>(o: Entries<V>): (vs: seq<V>)
    ensures |vs| == |o|
    ensures forall i :: 0 <= i < |o| ==> vs[i] == o[i].1
  {
    if o == [] then [] else [o[0].1] + Values(o[1..])
  }

  /** Pairs up keys and values position by position. */
  function Zip<V>(ks: seq<string>, vs: seq<V>): Entries<V>
    requires |ks| == |vs|
  {
    if ks == [] then [] else [(ks[0], vs[0])] + Zip(ks[1..], vs[1..])
  }

  /** Pairing `Object.keys(o)` with `Object.values(o)` gives back `o`: nothing is lost or reordered. */
  lemma {:induction false} ZipKeysValues<V>(o: Entries<V>)
    ensures Zip(Keys(o), Values(o)) == o
  {
    if o != [] {
      assert Keys(o)[1..] == Keys(o[1..]);
      assert Values(o)[1..] == Values(o[1..]);
      ZipKeysValues(o[1..]);
    }
  }

  /**
   * `getChartData()`: `{}` unless `EstimatedMonthlyVisits` is present; otherwise one
   * label per date (formatted by `monthLabel`, the locale-dependent month name) and one
   * value per date, aligned and in the object's key order.
   */
  function GetChartData(trafficData: Option<TrafficReport>, monthLabel: string -> string): (r: ChartData)
    ensures r.NoData? <==> trafficData.None? || trafficData.value.EstimatedMonthlyVisits.None?
    ensures r.Chart? ==>
      var visits := trafficData.value.EstimatedMonthlyVisits.value;
      r.dataset.legend == VisitsLegend &&
      |r.labels| == |r.dataset.data| == |visits| &&
      forall i :: 0 <= i < |visits| ==> r.labels[i] == monthLabel(visits[i].0) && r.dataset.data[i] == visits[i].1
  {
    if trafficData.None? || trafficData.value.EstimatedMonthlyVisits.None? then NoData
    else
      var visits := trafficData.value.EstimatedMonthlyVisits.value;
      var dates := Keys(visits);
      Chart(seq(|dates|, i requires 0 <= i < |dates| => monthLabel(dates[i])), Dataset(VisitsLegend, Values(visits)))
  }

  /**
   * `getPieChartData()`: `{}` unless `TrafficSources` is present; otherwise its keys as
   * labels and its values as data, which pair back up into exactly the sources object.
   */
  function GetPieChartData(trafficData: Option<TrafficReport>): (r: ChartData)
    ensures r.NoData? <==> trafficData.None? || trafficData.value.TrafficSources.None?
    ensures r.Chart? ==>
      r.dataset.legend == SourcesLegend &&
      |r.labels| == |r.dataset.data| &&
      Zip(r.labels, r.dataset.data) == trafficData.value.TrafficSources.value
  {
    if trafficData.None? || trafficData.value.TrafficSources.None? then NoData
    else
      var sources := trafficData.value.TrafficSources.value;
      ZipKeysValues(sources);
      Chart(Keys(sources), Dataset(SourcesLegend, Values(sources)))
  }

  /** A number is falsy in JavaScript when it is missing or zero. */
  predicate Falsy<T(==)>(x: Option<T>, zero: T)
  {
    x.None? || x.value == zero
  }

  /** `x || 0`: the number itself when truthy, else 0. */
  function OrZero(x: Option<real>): (r: real)
    ensures Falsy(x, 0.0) ==> r == 0.0
    ensures !Falsy(x, 0.0) ==> r == x.value
  {
    if x.Some? && x.value != 0.0 then x.value else 0.0
  }

  /** A card cannot tell a missing metric from a zero one. */
  lemma MissingLooksLikeZero()
    ensures OrZero(None) == OrZero(Some(0.0))
  {
  }

  /** `trafficData.GlobalRank?.Rank || "N/A"`, as the text it renders. */
  function RankText(g: Option<GlobalRankInfo>): (s: string)
    ensures s == NotAvailable <==> g.None? || Falsy(g.value.Rank, 0)
    ensures !(g.None? || Falsy(g.value.Rank, 0)) ==> s == IntToDecimal(g.value.Rank.value)
  {
    if g.Some? && g.value.Rank.Some? && g.value.Rank.value != 0 then IntToDecimal(g.value.Rank.value)
    else NotAvailable
  }

  /** Two present, non-zero ranks render the same text only when they are the same rank. */
  lemma RankTextDistinguishes(a: int, b: int)
    requires a != 0 && b != 0 && a != b
    ensures RankText(Some(GlobalRankInfo(Some(a)))) != RankText(Some(GlobalRankInfo(Some(b))))
  {
    if IntToDecimal(a) == IntToDecimal(b) {
      IntToDecimalInjective(a, b);
    }
  }

  /** `keyword.Volume ? `${keyword.Volume} searches` : "N/A"`. */
  function VolumeText(k: Keyword): (s: string)
    ensures s == NotAvailable <==> Falsy(k.Volume, 0)
    ensures !Falsy(k.Volume, 0) ==> s == IntToDecimal(k.Volume.value) + " searches"
  {
    if k.Volume.Some? && k.Volume.value != 0 then IntToDecimal(k.Volume.value) + " searches"
    else NotAvailable
  }

  /** Two different truthy volumes never show the same chip text. */
  lemma VolumeTextDistinguishes(k1: Keyword, k2: Keyword)
    requires !Falsy(k1.Volume, 0) && !Falsy(k2.Volume, 0) && k1.Volume != k2.Volume
    ensures VolumeText(k1) != VolumeText(k2)
  {
    var a, b := k1.Volume.value, k2.Volume.value;
    if VolumeText(k1) == VolumeText(k2) {
      var da, db := IntToDecimal(a), IntToDecimal(b);
      assert |da| == |db|;
      assert da == VolumeText(k1)[..|da|] == VolumeText(k2)[..|db|] == db;
      IntToDecimalInjective(a, b);
    }
  }

  /** Reading a property of `undefined` while rendering: the page throws. */
  datatype RenderError = TypeError(property: string)

  /** What the four metric cards show. */
  datatype Metrics = Metrics(visits: real, timeOnSite: real, pagesPerVisit: real, globalRank: string)

  /**
   * The metric cards: `Engagments` is read without `?.`, so its absence throws; each
   * engagement number falls back to 0 and the rank to "N/A".
   */
  function MetricCards(d: TrafficReport): (r: Result<Metrics, RenderError>)
    ensures r.Failure? <==> d.Engagments.None?
    ensures r.Success? ==>
      var e := d.Engagments.value;
      (r.value.visits == 0.0 <==> Falsy(e.Visits, 0.0)) &&
      (!Falsy(e.Visits, 0.0) ==> r.value.visits == e.Visits.value) &&
      (r.value.timeOnSite == 0.0 <==> Falsy(e.TimeOnSite, 0.0)) &&
      (!Falsy(e.TimeOnSite, 0.0) ==> r.value.timeOnSite == e.TimeOnSite.value) &&
      (r.value.pagesPerVisit == 0.0 <==> Falsy(e.PagePerVisit, 0.0)) &&
      (!Falsy(e.PagePerVisit, 0.0) ==> r.value.pagesPerVisit == e.PagePerVisit.value) &&
      (r.value.globalRank == NotAvailable <==> d.GlobalRank.None? || Falsy(d.GlobalRank.value.Rank, 0)) &&
      r.value.globalRank == RankText(d.GlobalRank)
  {
    match d.Engagments
    case None => Failure(TypeError("Visits"))
    case Some(e) => Success(Metrics(OrZero(e.Visits), OrZero(e.TimeOnSite), OrZero(e.PagePerVisit), RankText(d.GlobalRank)))
  }

  /**
   * The keyword chips: `TopKeywords.map` throws when the list is missing; otherwise one
   * chip per keyword, in order, showing its name and its volume text.
   */
  function KeywordChips(d: TrafficReport): (r: Result<seq<(string, string)>, RenderError>)
    ensures r.Failure? <==> d.TopKeywords.None?
    ensures r.Success? ==>
      var ks := d.TopKeywords.value;
      |r.value| == |ks| &&
      forall i :: 0 <= i < |ks| ==>
        r.value[i].0 == ks[i].Name && r.value[i].1 == VolumeText(ks[i]) &&
        (r.value[i].1 == NotAvailable <==> Falsy(ks[i].Volume, 0))
  {
    match d.TopKeywords
    case None => Failure(TypeError("map"))
    case Some(ks) => Success(seq(|ks|, i requires 0 <= i < |ks| => (ks[i].Name, VolumeText(ks[i]))))
  }

  class DashboardPage {
    var website: string
    /** None stands for `null`: no data yet, or a `null` body stored by a fetch. */
    var trafficData: Option<TrafficReport>
    var loading: bool
    var error: string

    function Shown(): Status
      reads this
    {
      Status(loading, error)
    }

    constructor ()
      ensures website == "" && trafficData == None && Shown() == Status(false, "")
    {
      website, trafficData := "", None;
      loading, error := false, "";
    }

    /** The text field's `onChange`. */
    method SetWebsite(w: string)
      modifies this
      ensures website == w && trafficData == old(trafficData) && Shown() == old(Shown())
    {
      website := w;
    }

    /**
     * `fetchWebsiteData`: loading is set and the error cleared before the request (made
     * for any input, the empty one included); an ok response with a parsable body is
     * stored unchanged, a JSON `null` body (None) clearing the earlier data; a thrown request, a non-ok response or an unparsable body sets
     * the error message and keeps the earlier data; loading ends false in every case.
     */
    method FetchWebsiteData(outcome: FetchOutcome<Option<TrafficReport>>)
      returns (requested: string, ghost atRequest: Status)
      modifies this
      ensures website == old(website) && requested == website
      ensures atRequest == Status(true, "") && !loading
      ensures FetchSucceeded(outcome) ==> trafficData == outcome.json.value && error == ""
      ensures !FetchSucceeded(outcome) ==> trafficData == old(trafficData) && error == FetchErrorMessage
    {
      loading := true;
      error := "";
      atRequest := Shown();
      requested := website;

      match outcome {
        case NetworkFailure =>
          error := FetchErrorMessage;
        case Response(ok, json) =>
          if !ok {
            error := FetchErrorMessage;
          } else if json.None? {
            error := FetchErrorMessage;
          } else {
            trafficData := json.value;
          }
      }
      loading := false;
    }
  }
}
