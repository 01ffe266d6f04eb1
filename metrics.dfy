/**
 * The metric catalog and the extraction of one URL's record from a result
 * payload (`METRICS` and `collectData` in index.js).
 */
module Metrics {
  import opened Wrappers
  import opened Js

  /** One catalog entry: the first-view field read and the label shown. */
  datatype CatalogEntry = CatalogEntry(key: string, caption: string)

  /** The catalog, in the order its entries are enumerated. */
  const Catalog: seq<CatalogEntry> := [
    CatalogEntry("TTFB", "Time to First Byte"),
    CatalogEntry("firstContentfulPaint", "First Contentful Paint"),
    CatalogEntry("TotalBlockingTime", "Total Blocking Time"),
    CatalogEntry("chromeUserTiming.LargestContentfulPaint", "Largest Contentful Paint"),
    CatalogEntry("chromeUserTiming.CumulativeLayoutShift", "Cumulative Layout Shift")
  ]

  datatype MetricRecord = MetricRecord(name: string, value: JsValue)

  /** The per-URL record pushed onto `runData.tests`. */
  datatype TestRecord = TestRecord(url: JsValue, testLink: JsValue, waterfall: JsValue, metrics: seq<MetricRecord>)

  // The result payload returned by the testing service. An `Option` that is
  // `None` stands for a property that is missing or null, whose access throws.
  datatype Images = Images(waterfall: JsValue)
  datatype FirstView = FirstView(fields: map<string, JsValue>, images: Option<Images>)
  datatype Median = Median(firstView: Option<FirstView>)
  datatype ResultData = ResultData(url: JsValue, summary: JsValue, median: Option<Median>)
  datatype Payload = Payload(data: Option<ResultData>)

  predicate LabelsDistinct(cat: seq<CatalogEntry>) {
    forall i, j :: 0 <= i < j < |cat| ==> cat[i].caption != cat[j].caption
  }

  predicate KeysDistinct(cat: seq<CatalogEntry>) {
    forall i, j :: 0 <= i < j < |cat| ==> cat[i].key != cat[j].key
  }

  /** The catalog has five entries, with distinct keys and distinct labels,
      so a label names exactly one metric. */
  lemma CatalogWellFormed()
    ensures |Catalog| == 5
    ensures KeysDistinct(Catalog) && LabelsDistinct(Catalog)
  {
  }

  /** A metric is reported when its first-view field is truthy. */
  predicate Reported(fields: map<string, JsValue>, key: string) {
    key in fields && Truthy(fields[key])
  }

  function RecordFor(e: CatalogEntry, fields: map<string, JsValue>): MetricRecord
    requires e.key in fields
  {
    MetricRecord(e.caption, fields[e.key])
  }

  /** The records emitted for the first `n` entries of `cat`. */
  function MetricsUpTo(cat: seq<CatalogEntry>, fields: map<string, JsValue>, n: nat): (r: seq<MetricRecord>)
    requires n <= |cat|
    ensures |r| <= n
    ensures forall m :: m in r ==> Truthy(m.value)
    decreases n
  {
    if n == 0 then []
    else
      MetricsUpTo(cat, fields, n - 1)
      + (if Reported(fields, cat[n - 1].key) then [RecordFor(cat[n - 1], fields)] else [])
  }

  /** The positions in `cat` of the entries emitted among the first `n`. */
  function PickedUpTo(cat: seq<CatalogEntry>, fields: map<string, JsValue>, n: nat): seq<nat>
    requires n <= |cat|
    decreases n
  {
    if n == 0 then []
    else PickedUpTo(cat, fields, n - 1) + (if Reported(fields, cat[n - 1].key) then [n - 1] else [])
  }

  /** The metrics list of a record built from a first view with these fields:
      no longer than the catalog, and with no placeholder values. */
  function ExtractMetrics(fields: map<string, JsValue>): (r: seq<MetricRecord>)
    ensures |r| <= |Catalog|
    ensures forall m :: m in r ==> Truthy(m.value)
  {
    MetricsUpTo(Catalog, fields, |Catalog|)
  }

  /** The catalog positions whose metrics `ExtractMetrics` emits. */
  function ExtractedPositions(fields: map<string, JsValue>): seq<nat> {
    PickedUpTo(Catalog, fields, |Catalog|)
  }

  /**
   * The records for the first `n` entries are, one for one, the records of
   * strictly increasing catalog positions, each with a truthy field, and every
   * position below `n` with a truthy field is among them.
   */
  lemma {:induction false} MetricsUpToShape(cat: seq<CatalogEntry>, fields: map<string, JsValue>, n: nat)
    requires n <= |cat|
    ensures |MetricsUpTo(cat, fields, n)| == |PickedUpTo(cat, fields, n)|
    ensures forall k :: 0 <= k < |PickedUpTo(cat, fields, n)| ==>
      var p := PickedUpTo(cat, fields, n)[k];
      p < n && Reported(fields, cat[p].key) && MetricsUpTo(cat, fields, n)[k] == RecordFor(cat[p], fields)
    ensures forall j, k :: 0 <= j < k < |PickedUpTo(cat, fields, n)| ==>
      PickedUpTo(cat, fields, n)[j] < PickedUpTo(cat, fields, n)[k]
    ensures forall i :: 0 <= i < n && Reported(fields, cat[i].key) ==> i in PickedUpTo(cat, fields, n)
    decreases n
  {
    if n > 0 {
      MetricsUpToShape(cat, fields, n - 1);
    }
  }

  /**
   * `ExtractMetrics` is a subsequence of the catalog in catalog order: its
   * k-th record carries the label and the value of the k-th emitted catalog
   * entry, the emitted positions increase, and no entry with a truthy field
   * is skipped.
   */
  lemma ExtractMetricsIsCatalogSubsequence(fields: map<string, JsValue>)
    ensures |ExtractMetrics(fields)| == |ExtractedPositions(fields)| <= |Catalog|
    ensures forall k :: 0 <= k < |ExtractedPositions(fields)| ==>
      var p := ExtractedPositions(fields)[k];
      p < |Catalog| && Reported(fields, Catalog[p].key)
      && ExtractMetrics(fields)[k] == MetricRecord(Catalog[p].caption, fields[Catalog[p].key])
    ensures forall j, k :: 0 <= j < k < |ExtractedPositions(fields)| ==>
      ExtractedPositions(fields)[j] < ExtractedPositions(fields)[k]
    ensures forall i :: 0 <= i < |Catalog| && Reported(fields, Catalog[i].key) ==> i in ExtractedPositions(fields)
  {
    MetricsUpToShape(Catalog, fields, |Catalog|);
    StrictlyIncreasingBounded(ExtractedPositions(fields), |Catalog|);
  }

  lemma {:induction false} StrictlyIncreasingBounded(p: seq<nat>, n: nat)
    requires forall k :: 0 <= k < |p| ==> p[k] < n
    requires forall j, k :: 0 <= j < k < |p| ==> p[j] < p[k]
    ensures |p| <= n
    decreases n
  {
    if |p| > 0 {
      var q := p[..|p| - 1];
      assert forall k :: 0 <= k < |q| ==> q[k] < p[|p| - 1] <= n - 1;
      StrictlyIncreasingBounded(q, n - 1);
    }
  }

  /**
   * A catalog metric appears in the list exactly when its first-view field is
   * truthy; when it appears it has the catalog caption and the field's value.
   * A missing or falsy field (such as 0) yields no entry under that label.
   */
  lemma MetricPresentIffReported(fields: map<string, JsValue>, i: nat)
    requires i < |Catalog|
    ensures (exists k :: 0 <= k < |ExtractMetrics(fields)| && ExtractMetrics(fields)[k].name == Catalog[i].caption)
            <==> Reported(fields, Catalog[i].key)
    ensures Reported(fields, Catalog[i].key) ==>
            MetricRecord(Catalog[i].caption, fields[Catalog[i].key]) in ExtractMetrics(fields)
  {
    ExtractMetricsIsCatalogSubsequence(fields);
    var r, p := ExtractMetrics(fields), ExtractedPositions(fields);
    assert LabelsDistinct(Catalog);
    if Reported(fields, Catalog[i].key) {
      assert i in p;
      var k :| 0 <= k < |p| && p[k] == i;
      assert r[k] == MetricRecord(Catalog[i].caption, fields[Catalog[i].key]);
    } else {
      forall k | 0 <= k < |r|
        ensures r[k].name != Catalog[i].caption
      {
        assert p[k] != i;
      }
    }
  }

  /** The property path the record is read from exists. */
  predicate HasWaterfall(p: Payload) {
    && p.data.Some?
    && p.data.value.median.Some?
    && p.data.value.median.value.firstView.Some?
    && p.data.value.median.value.firstView.value.images.Some?
  }

  /** The record `collectData` builds from a payload, or the `TypeError` it
      throws when the path to the waterfall image is broken. */
  function TestRecordOf(p: Payload): (r: Result<TestRecord, Failure>)
    ensures r.Ok? <==> HasWaterfall(p)
    ensures r.Err? ==> r.error == Failure(ErrorObjectDescription)
    ensures r.Ok? ==>
      && r.value.url == p.data.value.url
      && r.value.testLink == p.data.value.summary
      && r.value.waterfall == p.data.value.median.value.firstView.value.images.value.waterfall
      && r.value.metrics == ExtractMetrics(p.data.value.median.value.firstView.value.fields)
  {
    if HasWaterfall(p) then
      var d := p.data.value;
      var fv := d.median.value.firstView.value;
      Ok(TestRecord(d.url, d.summary, fv.images.value.waterfall, ExtractMetrics(fv.fields)))
    else
      Err(Failure(ErrorObjectDescription))
  }

  /**
   * Builds the record of `collectData`: the url, summary link and waterfall
   * image of this very payload, then one metric per catalog entry whose
   * first-view field is truthy, in catalog order.
   */
  method BuildTestRecord(p: Payload) returns (r: Result<TestRecord, Failure>)
    ensures r.Ok? <==> HasWaterfall(p)
    ensures r.Ok? ==>
      && r.value.url == p.data.value.url
      && r.value.testLink == p.data.value.summary
      && r.value.waterfall == p.data.value.median.value.firstView.value.images.value.waterfall
      && r.value.metrics == ExtractMetrics(p.data.value.median.value.firstView.value.fields)
    ensures r == TestRecordOf(p)
  {
    if !HasWaterfall(p) {
      return Err(Failure(ErrorObjectDescription));
    }
    var d := p.data.value;
    var fv := d.median.value.firstView.value;
    var metrics: seq<MetricRecord> := [];
    var i := 0;
    while i < |Catalog|
      invariant 0 <= i <= |Catalog|
      invariant metrics == MetricsUpTo(Catalog, fv.fields, i)
    {
      var entry := Catalog[i];
      if entry.key in fv.fields && Truthy(fv.fields[entry.key]) {
        metrics := metrics + [MetricRecord(entry.caption, fv.fields[entry.key])];
      }
      i := i + 1;
    }
    r := Ok(TestRecord(d.url, d.summary, fv.images.value.waterfall, metrics));
  }
}
