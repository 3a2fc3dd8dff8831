/**
 * The traffic-API dashboard: a guarded fetch of `{ traffic, backlinks, seoScore }` and
 * the line chart drawn from `traffic.labels` and `traffic.values`.
 */
module Dashboard2 {
  import opened Wrappers
  import opened Http
  import opened View

  const FetchErrorMessage := "Error fetching data. Please try again."
  const DatasetLegend := "Website Traffic"

  /**
   * The `data` object of the line chart: always one dataset; empty labels and values
   * without data, else the response's labels and values verbatim.
   */
  function ChartOf(trafficData: Option<SiteReport>): (r: ChartData)
    ensures r.Chart? && r.dataset.legend == DatasetLegend
    ensures trafficData.None? ==> r.labels == [] && r.dataset.data == []
    ensures trafficData.Some? ==>
      r.labels == trafficData.value.traffic.labels && r.dataset.data == trafficData.value.traffic.values
  {
    Chart(
      if trafficData.Some? then trafficData.value.traffic.labels else [],
      Dataset(DatasetLegend, if trafficData.Some? then trafficData.value.traffic.values else []))
  }

  class Dashboard2Page {
    var website: string
    /** None stands for `null`: no data yet, or a `null` body stored by a fetch. */
    var trafficData: Option<SiteReport>
    var loading: bool
    var error: string

    function Shown(): Status
      reads this
    {
      Status(loading, error)
    }

    constructor ()
      ensures website == "" && trafficData == None && Shown() == Status(false, "")
    {
      website, trafficData := "", None;
      loading, error := false, "";
    }

    /** The text field's `onChange`. */
    method SetWebsite(w: string)
      modifies this
      ensures website == w && trafficData == old(trafficData) && Shown() == old(Shown())
    {
      website := w;
    }

    /**
     * `fetchWebsiteData`: an empty input returns at once and changes nothing; otherwise
     * loading is set and the error cleared before the one request, the body is stored
     * verbatim on success (a JSON `null` body, None, clears the earlier data), the error message is set and the data kept on failure, and
     * loading ends false. `requested` is the website the request was issued for.
     */
    method FetchWebsiteData(outcome: AxiosOutcome<Option<SiteReport>>)
      returns (requested: Option<string>, ghost atRequest: Status)
      modifies this
      ensures website == old(website)
      ensures requested.Some? <==> website != ""
      ensures requested.None? ==> trafficData == old(trafficData) && Shown() == old(Shown())
      ensures requested.Some? ==> requested.value == website && atRequest == Status(true, "") && !loading
      ensures requested.Some? && outcome.Resolved? ==> trafficData == outcome.data && error == ""
      ensures requested.Some? && outcome.Rejected? ==> trafficData == old(trafficData) && error == FetchErrorMessage
    {
      atRequest := Shown();
      if website == "" {
        requested := None;
        return;
      }

      loading := true;
      error := "";
      atRequest := Shown();
      requested := Some(website);
      match outcome {
        case Resolved(body) =>
          trafficData := body;
        case Rejected(_) =>
          error := FetchErrorMessage;
      }
      loading := false;
    }
  }
}
