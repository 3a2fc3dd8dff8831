/**
 * The fixture dashboard: a two-entry table keyed by the exact URL typed in, looked up
 * synchronously, and the line chart drawn from the entry found.
 */
module Dashboard3 {
  import opened Wrappers
  import opened View

  const GoogleKey := "https://www.google.com"
  const FacebookKey := "https://www.facebook.com"
  const NoDataMessage := "No data available for the entered website."

  const Months: seq<string> := ["Jan", "Feb", "Mar", "Apr", "May", "Jun", "Jul", "Aug", "Sep", "Oct", "Nov", "Dec"]

  const GoogleValues: seq<real> := [200.0, 250.0, 300.0, 320.0, 350.0, 370.0, 390.0, 400.0, 450.0, 500.0, 550.0, 600.0]
  const FacebookValues: seq<real> := [150.0, 180.0, 210.0, 230.0, 250.0, 270.0, 290.0, 300.0, 320.0, 350.0, 380.0, 400.0]

  const GoogleFixture := SiteReport(
    Traffic("Google sees billions of visitors every day.", Months, GoogleValues),
    Backlinks(50000000), 98)

  const FacebookFixture := SiteReport(
    Traffic("Facebook remains one of the top social platforms globally.", Months, FacebookValues),
    Backlinks(30000000), 95)

  /** `hardcodedData`: its own keys and entries. */
  const HardcodedData: map<string, SiteReport> := map[GoogleKey := GoogleFixture, FacebookKey := FacebookFixture]

  /** Each value exceeds the one before it. */
  predicate Increasing(s: seq<real>)
  {
    |s| < 2 || (s[0] < s[1] && Increasing(s[1..]))
  }

  /** Adjacent increase gives increase between any two positions. */
  lemma {:induction false} IncreasingIsStrictlySorted(s: seq<real>)
    requires Increasing(s)
    ensures forall i, j :: 0 <= i < j < |s| ==> s[i] < s[j]
  {
    if |s| >= 2 {
      IncreasingIsStrictlySorted(s[1..]);
      forall i, j | 0 <= i < j < |s| ensures s[i] < s[j] {
        assert s[j] == s[1..][j - 1];
        if i > 0 { assert s[i] == s[1..][i - 1]; }
        else if j > 1 { assert s[1] == s[1..][0]; }
      }
    }
  }

  lemma FixtureValuesIncrease()
    ensures Increasing(GoogleValues) && Increasing(FacebookValues)
  {
  }

  /** A fixture's series: the twelve month labels and twelve strictly increasing values. */
  predicate MonthlySeries(t: Traffic)
  {
    t.labels == Months && |t.values| == 12 &&
    forall i, j :: 0 <= i < j < |t.values| ==> t.values[i] < t.values[j]
  }

  /** The table has exactly the two fixtures, under their two keys. */
  lemma TableEntries()
    ensures HardcodedData.Keys == {GoogleKey, FacebookKey}
    ensures HardcodedData[GoogleKey] == GoogleFixture && HardcodedData[FacebookKey] == FacebookFixture
  {
    assert GoogleKey[12] != FacebookKey[12];
  }

  /** Every entry of the table holds a monthly series. */
  lemma FixturesWellFormed()
    ensures forall key :: key in HardcodedData ==> MonthlySeries(HardcodedData[key].traffic)
  {
    TableEntries();
    FixtureSeries();
  }

  lemma FixtureSeries()
    ensures MonthlySeries(GoogleFixture.traffic) && MonthlySeries(FacebookFixture.traffic)
  {
    FixtureValuesIncrease();
    IncreasingIsStrictlySorted(GoogleValues);
    IncreasingIsStrictlySorted(FacebookValues);
  }

  /**
   * The guard `hardcodedData[website]` as written: a plain JavaScript object also answers
   * with a truthy value for every property it inherits from Object.prototype.
   */
  const ObjectPrototypeNames: set<string> := {
    "constructor", "__proto__", "toString", "toLocaleString", "valueOf", "hasOwnProperty",
    "isPrototypeOf", "propertyIsEnumerable", "__defineGetter__", "__defineSetter__",
    "__lookupGetter__", "__lookupSetter__"}

  predicate GuardAsWritten(website: string)
  {
    website in HardcodedData || website in ObjectPrototypeNames
  }

  /** "toString" passes the guard as written although the table holds no fixture for it. */
  lemma InheritedNamePassesGuard()
    ensures GuardAsWritten("toString") && "toString" !in HardcodedData
  {
  }

  /** The lookup as intended: own entries only, compared by exact string. */
  function Lookup(website: string): (r: Option<SiteReport>)
    ensures r.Some? <==> website == GoogleKey || website == FacebookKey
    ensures website == GoogleKey ==> r == Some(GoogleFixture)
    ensures website == FacebookKey ==> r == Some(FacebookFixture)
  {
    if website in HardcodedData then Some(HardcodedData[website]) else None
  }

  /** A key without its scheme and host prefix misses. */
  lemma BareDomainMisses()
    ensures Lookup("google.com").None? && Lookup("www.google.com").None?
  {
  }

  /** The dataset label: "Google" exactly for the Google key, "Facebook" for any other input. */
  function DatasetLabel(website: string): (legend: string)
    ensures legend == "Google" <==> website == GoogleKey
    ensures legend == "Google" || legend == "Facebook"
  {
    if website == GoogleKey then "Google" else "Facebook"
  }

  /**
   * The `data` object of the line chart: `{}` without data, else the entry's labels and
   * values verbatim under the label chosen from the current input.
   */
  function ChartOf(website: string, trafficData: Option<SiteReport>): (r: ChartData)
    ensures r.NoData? <==> trafficData.None?
    ensures r.Chart? ==> r.labels == trafficData.value.traffic.labels
    ensures r.Chart? ==> r.dataset.data == trafficData.value.traffic.values
    ensures r.Chart? ==> r.dataset.legend == DatasetLabel(website)
  {
    match trafficData
    case None => NoData
    case Some(d) => Chart(d.traffic.labels, Dataset(DatasetLabel(website), d.traffic.values))
  }

  /**
   * The label follows the text field, not the data shown: Google's fixture charted while
   * the field holds anything else is labelled "Facebook".
   */
  lemma LabelFollowsInput(website: string)
    requires website != GoogleKey
    ensures ChartOf(website, Lookup(GoogleKey)).dataset.legend == "Facebook"
    ensures ChartOf(website, Lookup(GoogleKey)).dataset.data == GoogleFixture.traffic.values
  {
  }

  class Dashboard3Page {
    var website: string
    var trafficData: Option<SiteReport>
    var loading: bool
    var error: string

    function Shown(): Status
      reads this
    {
      Status(loading, error)
    }

    constructor ()
      ensures website == "" && trafficData == None && Shown() == Status(false, "")
    {
      website, trafficData := "", None;
      loading, error := false, "";
    }

    /** The text field's `onChange`. */
    method SetWebsite(w: string)
      modifies this
      ensures website == w && trafficData == old(trafficData) && Shown() == old(Shown())
    {
      website := w;
    }

    /**
     * `fetchWebsiteData`: a hit stores the fixture and leaves `error` empty; a miss sets the
     * no-data message and keeps the earlier data; `loading` ends false either way.
     */
    method FetchWebsiteData()
      modifies this
      ensures website == old(website) && !loading
      ensures Lookup(website).Some? ==> trafficData == Lookup(website) && error == ""
      ensures Lookup(website).None? ==> trafficData == old(trafficData) && error == NoDataMessage
    {
      loading := true;
      error := "";
      var entry := Lookup(website);
      if entry.Some? {
        trafficData := entry;
      } else {
        error := NoDataMessage;
      }
      loading := false;
    }
  }
}
