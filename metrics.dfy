/**
 * The gateway's request metrics: the seven internal request counters that every recorded
 * request updates, the status-range label and the names of the counters and histograms
 * handed to the metrics exporter.
 */
module Metrics {
  import opened Common

  /** A snapshot of the seven counters. */
  datatype Tally = Tally(
    total: nat,
    success: nat,
    error: nat,
    longpollRequests: nat,
    longpollErrors: nat,
    bulkDocsRequests: nat,
    bulkDocsErrors: nat)

  /** Every status below 400 counts as a success. */
  predicate IsSuccessStatus(status: u16) {
    status < 400
  }

  /** A long-poll request, judged on the recorded path alone. */
  predicate IsLongpollPath(path: string) {
    Contains(path, "/_changes") && Contains(path, "feed=longpoll")
  }

  predicate IsBulkDocsPath(path: string) {
    Contains(path, "/_bulk_docs")
  }

  /** The counters after one more request with that path and status. */
  function Record(t: Tally, path: string, status: u16): (r: Tally)
    ensures r.total == t.total + 1 && r.success + r.error == t.success + t.error + 1
    ensures r.success == t.success + 1 <==> IsSuccessStatus(status)
    ensures r.longpollRequests == t.longpollRequests + 1 <==> IsLongpollPath(path)
    ensures r.bulkDocsRequests == t.bulkDocsRequests + 1 <==> IsBulkDocsPath(path)
  {
    var ok := IsSuccessStatus(status);
    var longpoll := IsLongpollPath(path);
    var bulk := IsBulkDocsPath(path);
    Tally(
      t.total + 1,
      t.success + (if ok then 1 else 0),
      t.error + (if ok then 0 else 1),
      t.longpollRequests + (if longpoll then 1 else 0),
      t.longpollErrors + (if longpoll && !ok then 1 else 0),
      t.bulkDocsRequests + (if bulk then 1 else 0),
      t.bulkDocsErrors + (if bulk && !ok then 1 else 0))
  }

  /** The relations between the counters that recording keeps. */
  predicate Consistent(t: Tally) {
    && t.success + t.error == t.total
    && t.longpollErrors <= t.longpollRequests <= t.total
    && t.bulkDocsErrors <= t.bulkDocsRequests <= t.total
    && t.longpollErrors <= t.error && t.bulkDocsErrors <= t.error
  }

  const Zero: Tally := Tally(0, 0, 0, 0, 0, 0, 0)

  /**
   * One recorded request adds exactly one to the total and to exactly one of success and
   * error; the long-poll and bulk-docs counters move only for their own paths, and the
   * counters stay consistent.
   */
  lemma RecordKeepsConsistent(t: Tally, path: string, status: u16)
    requires Consistent(t)
    ensures var u := Record(t, path, status);
      && Consistent(u)
      && u.total == t.total + 1
      && (u.success == t.success + 1 <==> status < 400)
      && (u.error == t.error + 1 <==> status >= 400)
      && (!IsLongpollPath(path) ==> u.longpollRequests == t.longpollRequests && u.longpollErrors == t.longpollErrors)
      && (!IsBulkDocsPath(path) ==> u.bulkDocsRequests == t.bulkDocsRequests && u.bulkDocsErrors == t.bulkDocsErrors)
  {
  }

  /** The counters after a sequence of (path, status) requests, oldest first. */
  function RecordAll(t: Tally, requests: seq<(string, u16)>): Tally
    decreases |requests|
  {
    if requests == [] then t
    else Record(RecordAll(t, requests[..|requests| - 1]), requests[|requests| - 1].0, requests[|requests| - 1].1)
  }

  /** The number of requests in a history whose status is below 400. */
  function SuccessCount(requests: seq<(string, u16)>): (r: nat)
    ensures r <= |requests|
    decreases |requests|
  {
    if requests == [] then 0
    else SuccessCount(requests[..|requests| - 1]) + (if requests[|requests| - 1].1 < 400 then 1 else 0)
  }

  /**
   * From fresh counters, any history leaves them consistent, with the total equal to the
   * number of requests and the success count equal to the number of statuses below 400.
   */
  lemma {:induction false} HistoryCounts(requests: seq<(string, u16)>)
    ensures Consistent(RecordAll(Zero, requests))
    ensures RecordAll(Zero, requests).total == |requests|
    ensures RecordAll(Zero, requests).success == SuccessCount(requests)
    decreases |requests|
  {
    if requests != [] {
      var n := |requests| - 1;
      HistoryCounts(requests[..n]);
      RecordKeepsConsistent(RecordAll(Zero, requests[..n]), requests[n].0, requests[n].1);
    }
  }

  /** The status-range label of the request counter name. */
  function StatusRange(status: u16): (r: string)
    ensures |r| == 3 && r[1..] == "xx"
    ensures 100 <= status <= 599 ==> r[0] as int - '0' as int == status / 100
  {
    if status < 200 then "1xx"
    else if status < 300 then "2xx"
    else if status < 400 then "3xx"
    else if status < 500 then "4xx"
    else "5xx"
  }

  /** A path as it appears inside a metric name: every '/' becomes '_'. */
  function SanitizePath(path: string): (r: string)
    ensures |r| == |path|
    ensures forall i :: 0 <= i < |r| ==> r[i] != '/'
    ensures forall i :: 0 <= i < |r| ==> r[i] == (if path[i] == '/' then '_' else path[i])
  {
    ReplaceChar(path, '/', '_')
  }

  /** The name of the per-path, per-method, per-range request counter. */
  function RequestMetricName(path: string, verb: string, status: u16): (r: string)
    ensures StartsWith(r, "http_requests_path_" + SanitizePath(path))
    ensures EndsWith(r, "_status_" + StatusRange(status))
  {
    var tail := "_method_" + verb + "_status_" + StatusRange(status);
    assert ("http_requests_path_" + SanitizePath(path)) + tail == "http_requests_path_" + SanitizePath(path) + tail;
    "http_requests_path_" + SanitizePath(path) + tail
  }

  /** The name of the per-path request-duration histogram. */
  function DurationMetricName(path: string): string {
    "http_request_duration_seconds_" + SanitizePath(path)
  }

  /** The name of the per-path, per-method proxy-duration histogram. */
  function ProxyDurationMetricName(path: string, verb: string): string {
    "http_request_duration_seconds_path_" + SanitizePath(path) + "_method_" + verb
  }

  /** The outcome label of the document-sync and replication counters. */
  function ResultLabel(success: bool): (r: string)
    ensures r == "success" <==> success
    ensures r == "failure" <==> !success
  {
    if success then "success" else "failure"
  }

  function DocumentSyncMetricName(db: string, success: bool): string {
    "document_sync_database_" + db + "_result_" + ResultLabel(success)
  }

  function ReplicationMetricName(source: string, target: string, success: bool): string {
    "replication_source_" + source + "_target_" + target + "_result_" + ResultLabel(success)
  }

  /** Two paths that differ only in '/' against '_' share every metric name. */
  lemma SanitizeMerges(p: string, q: string)
    requires |p| == |q|
    requires forall i :: 0 <= i < |p| ==> p[i] == q[i] || (p[i] in {'/', '_'} && q[i] in {'/', '_'})
    ensures SanitizePath(p) == SanitizePath(q)
    ensures DurationMetricName(p) == DurationMetricName(q)
    ensures forall verb :: ProxyDurationMetricName(p, verb) == ProxyDurationMetricName(q, verb)
  {
  }

  /** The outcome of a sync or replication can be read back from the metric name. */
  lemma ResultNamesDiffer(db: string, source: string, target: string)
    ensures DocumentSyncMetricName(db, true) != DocumentSyncMetricName(db, false)
    ensures ReplicationMetricName(source, target, true) != ReplicationMetricName(source, target, false)
  {
    var p := "document_sync_database_" + db + "_result_";
    assert DocumentSyncMetricName(db, true)[|p|] == 's';
    assert DocumentSyncMetricName(db, false)[|p|] == 'f';
    var q := "replication_source_" + source + "_target_" + target + "_result_";
    assert ReplicationMetricName(source, target, true)[|q|] == 's';
    assert ReplicationMetricName(source, target, false)[|q|] == 'f';
  }

  /** The internal counters of the metrics state, updated in place under its write lock. */
  class RequestCounts {
    var total: nat
    var success: nat
    var error: nat
    var longpollRequests: nat
    var longpollErrors: nat
    var bulkDocsRequests: nat
    var bulkDocsErrors: nat

    function Snapshot(): Tally
      reads this
    {
      Tally(total, success, error, longpollRequests, longpollErrors, bulkDocsRequests, bulkDocsErrors)
    }

    /** A new metrics state starts with every counter at zero. */
    constructor()
      ensures Snapshot() == Zero
    {
      total, success, error := 0, 0, 0;
      longpollRequests, longpollErrors := 0, 0;
      bulkDocsRequests, bulkDocsErrors := 0, 0;
    }

    /**
     * `record_request`: updates the counters and returns the name of the exporter's
     * request counter that was incremented.
     */
    method RecordRequest(path: string, verb: string, status: u16) returns (metricName: string)
      modifies this
      ensures Snapshot() == Record(old(Snapshot()), path, status)
      ensures metricName == RequestMetricName(path, verb, status)
    {
      var isSuccess := status < 400;
      var isLongpoll := Contains(path, "/_changes") && Contains(path, "feed=longpoll");
      var isBulkDocs := Contains(path, "/_bulk_docs");
      metricName := RequestMetricName(path, verb, status);
      total := total + 1;
      if isSuccess {
        success := success + 1;
      } else {
        error := error + 1;
      }
      if isLongpoll {
        longpollRequests := longpollRequests + 1;
        if !isSuccess {
          longpollErrors := longpollErrors + 1;
        }
      }
      if isBulkDocs {
        bulkDocsRequests := bulkDocsRequests + 1;
        if !isSuccess {
          bulkDocsErrors := bulkDocsErrors + 1;
        }
      }
    }
  }
}
