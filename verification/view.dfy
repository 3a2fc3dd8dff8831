/** Shapes shared by the three dashboard pages. */
module View {

  /** One chart.js dataset: its legend text (`label`) and its values. */
  datatype Dataset = Dataset(legend: string, data: seq<real>)

  /** A chart.js `data` object: `{}`, or `{ labels, datasets: [dataset] }`. */
  datatype ChartData = NoData | Chart(labels: seq<string>, dataset: Dataset)

  /** The `loading` and `error` hooks every dashboard page keeps beside `trafficData`. */
  datatype Status = Status(loading: bool, error: string)

  /** The `{ traffic: { overview, labels, values }, backlinks: { total }, seoScore }` shape. */
  datatype Traffic = Traffic(overview: string, labels: seq<string>, values: seq<real>)
  datatype Backlinks = Backlinks(total: int)
  datatype SiteReport = SiteReport(traffic: Traffic, backlinks: Backlinks, seoScore: int)
}
