/** The REST benchmark client (benchmarks/src/rest_client.rs): how it writes
    the URL of each call, and how it turns the reply into success or an error.
    The network is the `send` function: it maps the request the client makes
    to the reply it awaits. */
module RestClient {
  import opened Common
  import opened Decimal
  import opened Metrics
  import opened QueryString

  const METRICS_URL: string := "http://127.0.0.1:3000/metrics"
  const STATISTICS_URL: string := "http://127.0.0.1:3000/statistics"

  datatype Verb = Get | Post

  /** What the client puts on the wire: verb, URL and (for a POST) the JSON body's value. */
  datatype Request = Request(verb: Verb, url: string, body: Option<MetricPoint>)

  /** An HTTP status code as the `http` crate admits it. */
  type StatusCode = c: int | 100 <= c <= 999 witness 200

  /** The awaited outcome of sending a request: no response at all, or a status
      and a body that did (`Some`) or did not (`None`) decode as the expected JSON. */
  datatype Reply<T> = Unreachable | Reply(status: StatusCode, body: Option<T>)

  datatype RestError = TransportFailed | StatusFailed(status: StatusCode) | DecodeFailed

  /** `StatusCode::is_success`: the 2xx range. */
  predicate IsSuccess(status: StatusCode) {
    200 <= status <= 299
  }

  // ---------------------------------------------------------------------------
  // Query URLs

  /** The time window every query sends first. */
  function WindowParams(query: MetricQuery): seq<(string, string)> {
    [(START_TIME, IntToString(query.startTime)), (END_TIME, IntToString(query.endTime))]
  }

  /** The parameters a query sends, in the order the client writes them. */
  function QueryParams(query: MetricQuery): seq<(string, string)> {
    match query.hostnameFilter
    case Some(h) => WindowParams(query) + [(HOSTNAME_FILTER, h)]
    case None => WindowParams(query)
  }

  function QueryUrl(base: string, query: MetricQuery): string {
    base + "?" + EncodeParams(QueryParams(query))
  }

  /** The URL `query_metrics` and `get_statistics` build with `push_str`: the
      window first, then the hostname filter exactly when there is one, its
      text inserted as it is. */
  method BuildQueryUrl(base: string, query: MetricQuery) returns (url: string)
    ensures url == QueryUrl(base, query)
  {
    var start, end := IntToString(query.startTime), IntToString(query.endTime);
    url := base;
    url := url + ("?" + START_TIME + "=" + start + "&" + END_TIME + "=" + end);
    WindowSegments(query);
    assert url == base + "?" + EncodeParams(WindowParams(query));
    if query.hostnameFilter.Some? {
      var hostname := query.hostnameFilter.value;
      url := url + ("&" + HOSTNAME_FILTER + "=" + hostname);
      EncodeParamsAppend(WindowParams(query), (HOSTNAME_FILTER, hostname));
      assert url == base + "?" + (EncodeParams(WindowParams(query)) + "&" + Segment((HOSTNAME_FILTER, hostname)));
    }
  }

  /** The window as `format!` writes it. */
  lemma WindowSegments(query: MetricQuery)
    ensures var start, end := IntToString(query.startTime), IntToString(query.endTime);
      "?" + START_TIME + "=" + start + "&" + END_TIME + "=" + end
      == "?" + EncodeParams(WindowParams(query))
  {
    var start, end := IntToString(query.startTime), IntToString(query.endTime);
    var window := WindowParams(query);
    assert window[1..] == [(END_TIME, end)];
    assert EncodeParams(window) == (START_TIME + "=" + start) + "&" + (END_TIME + "=" + end);
  }

  /** Neither `&`, `#` nor `=` appears in the decimal form of a number. */
  lemma IntToStringPlain(x: int)
    ensures '&' !in IntToString(x) && '#' !in IntToString(x) && '=' !in IntToString(x)
  {
    var s := IntToString(x);
    assert forall i :: 0 <= i < |s| ==> IsDigit(s[i]) || s[i] == '-';
  }

  /** The window's text has no `&` and no `#`, and reads back as its two pairs. */
  lemma WindowReadBack(query: MetricQuery)
    ensures '#' !in EncodeParams(WindowParams(query))
    ensures ParseQuery(EncodeParams(WindowParams(query))) == WindowParams(query)
  {
    var window := WindowParams(query);
    IntToStringPlain(query.startTime);
    IntToStringPlain(query.endTime);
    assert Unambiguous(window);
    NotInEncodeParams(window, '#');
    ParseEncodeParams(window);
  }

  /** Neither window segment holds an `&`. */
  lemma WindowSegmentsPlain(query: MetricQuery)
    ensures '&' !in Segment(WindowParams(query)[0]) && '&' !in Segment(WindowParams(query)[1])
  {
    IntToStringPlain(query.startTime);
    IntToStringPlain(query.endTime);
  }

  /** The text of a window followed by a hostname filter. */
  lemma EncodedWithHostname(query: MetricQuery, h: string)
    requires query.hostnameFilter == Some(h)
    ensures var window := WindowParams(query);
      EncodeParams(QueryParams(query))
      == Segment(window[0]) + ['&'] + (Segment(window[1]) + ['&'] + (HOSTNAME_FILTER + "=" + h))
  {
    var window := WindowParams(query);
    EncodeParamsAppend(window, (HOSTNAME_FILTER, h));
    assert window[1..] == [window[1]];
  }

  /** Splitting two separator-free segments off the front of a string. */
  lemma SplitTwoFront(a: string, b: string, c: string, sep: char)
    requires sep !in a && sep !in b
    ensures Split(a + [sep] + (b + [sep] + c), sep) == [a, b] + Split(c, sep)
  {
    SplitAtSeparator(a, b + [sep] + c, sep);
    SplitAtSeparator(b, c, sep);
  }

  /** The `&`-separated segments of a window followed by a hostname filter:
      the two window segments, then the filter's segment up to the
      hostname's first `&`, then the rest of the hostname's pieces. */
  lemma HostnameSegments(query: MetricQuery, h: string)
    requires query.hostnameFilter == Some(h)
    ensures var window := WindowParams(query);
      Split(EncodeParams(QueryParams(query)), '&')
      == [Segment(window[0]), Segment(window[1]), HOSTNAME_FILTER + "=" + Split(h, '&')[0]]
         + Split(h, '&')[1..]
  {
    var window := WindowParams(query);
    WindowSegmentsPlain(query);
    EncodedWithHostname(query, h);
    var last := HOSTNAME_FILTER + "=";
    SplitTwoFront(Segment(window[0]), Segment(window[1]), last + h, '&');
    assert '&' !in last;
    SplitPrefix(last, h, '&');
  }

  /** The pairs read back from a window followed by a hostname filter: the
      window, then `hostname_filter` with the hostname's text up to its first
      `&`, then one pair for every further `&`-separated piece of the hostname. */
  lemma HostnameReadBack(query: MetricQuery, h: string)
    requires query.hostnameFilter == Some(h)
    ensures var ps := ParseQuery(EncodeParams(QueryParams(query)));
      var pieces := Split(h, '&');
      && |ps| == 2 + |pieces|
      && ps[..2] == WindowParams(query)
      && ps[2] == (HOSTNAME_FILTER, pieces[0])
      && ps[3..] == SplitPairs(pieces[1..])
  {
    var window := WindowParams(query);
    var pieces := Split(h, '&');
    HostnameSegments(query, h);
    var front := [Segment(window[0]), Segment(window[1]), HOSTNAME_FILTER + "=" + pieces[0]];
    SplitPairsAppend(front, pieces[1..]);
    var ps := SplitPairs(front) + SplitPairs(pieces[1..]);
    assert ps == ParseQuery(EncodeParams(QueryParams(query)));
    SplitPairsAt(front);
    IntToStringPlain(query.startTime);
    IntToStringPlain(query.endTime);
    SplitPairOfPair(window[0].0, window[0].1);
    SplitPairOfPair(window[1].0, window[1].1);
    SplitPairOfPair(HOSTNAME_FILTER, pieces[0]);
    assert ps[0] == window[0] && ps[1] == window[1];
    assert ps[..2] == window;
    assert ps[3..] == SplitPairs(pieces[1..]);
  }

  /** What the receiving side reads from the URL: the query part after `?`. */
  lemma ReadParamsOfQueryUrl(base: string, query: MetricQuery)
    requires '?' !in base && '#' !in base
    requires query.hostnameFilter.Some? ==> '#' !in query.hostnameFilter.value
    ensures ReadParams(QueryUrl(base, query)) == ParseQuery(EncodeParams(QueryParams(query)))
  {
    var params := QueryParams(query);
    IntToStringPlain(query.startTime);
    IntToStringPlain(query.endTime);
    NotInEncodeParams(params, '#');
    QueryPartOf(base, EncodeParams(params));
  }

  /** What the receiving side reads from the URL of any query whose hostname
      holds no `#`: the window always comes first and reads back as the same
      two numbers; a hostname adds `hostname_filter` with its text up to the
      first `&`, and every further `&` in it adds a parameter of its own. */
  lemma QueryUrlReadBack(base: string, query: MetricQuery)
    requires '?' !in base && '#' !in base
    requires query.hostnameFilter.Some? ==> '#' !in query.hostnameFilter.value
    ensures var ps := ReadParams(QueryUrl(base, query));
      && |ps| >= 2
      && ps[0] == (START_TIME, IntToString(query.startTime))
      && ps[1] == (END_TIME, IntToString(query.endTime))
      && ParseInt64(ps[0].1) == Some(query.startTime)
      && ParseInt64(ps[1].1) == Some(query.endTime)
      && (query.hostnameFilter.None? ==> |ps| == 2)
      && (query.hostnameFilter.Some? ==>
            var pieces := Split(query.hostnameFilter.value, '&');
            && |ps| == 2 + |pieces|
            && ps[2] == (HOSTNAME_FILTER, pieces[0])
            && ps[3..] == SplitPairs(pieces[1..]))
  {
    ReadParamsOfQueryUrl(base, query);
    Int64RoundTrip(query.startTime);
    Int64RoundTrip(query.endTime);
    var ps := ReadParams(QueryUrl(base, query));
    if query.hostnameFilter.Some? {
      HostnameReadBack(query, query.hostnameFilter.value);
      assert ps[0] == ps[..2][0] && ps[1] == ps[..2][1];
    } else {
      WindowReadBack(query);
    }
  }

  /** The parameters of a query deserialise to the query. */
  lemma ReadQueryParams(query: MetricQuery)
    ensures ReadQuery(QueryParams(query)) == Some(query)
  {
    var window := WindowParams(query);
    var start, end := IntToString(query.startTime), IntToString(query.endTime);
    Int64RoundTrip(query.startTime);
    Int64RoundTrip(query.endTime);
    FieldNamesDistinct();
    LookupAppend([window[0]], window[1], START_TIME);
    LookupAppend([window[0]], window[1], END_TIME);
    LookupAppend([window[0]], window[1], HOSTNAME_FILTER);
    assert [window[0]] + [window[1]] == window;
    assert [window[0]][1..] == [];
    assert Lookup(window, START_TIME) == [start];
    assert Lookup(window, END_TIME) == [end];
    assert Lookup(window, HOSTNAME_FILTER) == [];
    if query.hostnameFilter.Some? {
      var h := query.hostnameFilter.value;
      LookupAppend(window, (HOSTNAME_FILTER, h), START_TIME);
      LookupAppend(window, (HOSTNAME_FILTER, h), END_TIME);
      LookupAppend(window, (HOSTNAME_FILTER, h), HOSTNAME_FILTER);
    }
  }

  /** Text that reqwest's URL parser keeps as it is at the end of a URL: the
      parser removes every tab, line feed and carriage return, and trims
      trailing spaces and C0 control characters. */
  predicate KeptByUrlParser(s: string) {
    && '\t' !in s && '\n' !in s && '\r' !in s
    && (|s| > 0 ==> s[|s| - 1] > ' ')
  }

  /** With none of `&`, `#`, `+` and `%` in the hostname (the characters the
      receiving side would split at, cut at or decode), and nothing in it that
      the client's URL parser strips, the receiving side reads back exactly the
      parameters sent, and from them exactly the query. */
  lemma QueryUrlRoundTrip(base: string, query: MetricQuery)
    requires '?' !in base && '#' !in base
    requires query.hostnameFilter.Some? ==>
               var h := query.hostnameFilter.value;
               '&' !in h && '#' !in h && '+' !in h && '%' !in h && KeptByUrlParser(h)
    ensures ReadParams(QueryUrl(base, query)) == QueryParams(query)
    ensures ReadQuery(ReadParams(QueryUrl(base, query))) == Some(query)
  {
    ReadParamsOfQueryUrl(base, query);
    if query.hostnameFilter.Some? {
      var h := query.hostnameFilter.value;
      HostnameReadBack(query, h);
      SplitNoSeparator(h, '&');
      var ps := ReadParams(QueryUrl(base, query));
      assert ps == ps[..2] + [ps[2]];
    } else {
      WindowReadBack(query);
    }
    ReadQueryParams(query);
  }

  /** The metrics and statistics URLs differ only in the path: the receiving
      side reads the same parameters from both. */
  lemma StatisticsUrlSameParams(query: MetricQuery)
    ensures ReadParams(QueryUrl(METRICS_URL, query)) == ReadParams(QueryUrl(STATISTICS_URL, query))
  {
    QueryPartIgnoresBase(METRICS_URL, STATISTICS_URL, EncodeParams(QueryParams(query)));
  }

  /** Four pairs read back as the parameters of `meant` followed by `extra`. */
  lemma ExtraPairRead(ps: seq<(string, string)>, meant: MetricQuery, extra: (string, string))
    requires meant.hostnameFilter.Some?
    requires |ps| == 4 && ps[..2] == WindowParams(meant)
    requires ps[2] == (HOSTNAME_FILTER, meant.hostnameFilter.value) && ps[3] == extra
    ensures ps == QueryParams(meant) + [extra]
  {
    assert ps == ps[..2] + [ps[2]] + [ps[3]];
  }

  /** A hostname such as `web-01&start_time=5` repeats a field: the
      receiving side can no longer read the query at all. */
  lemma InjectedFieldRejected(base: string, query: MetricQuery, name: string, value: string)
    requires '?' !in base && '#' !in base
    requires '&' !in name && '&' !in value && '#' !in name && '#' !in value
    requires query.hostnameFilter == Some(name + "&" + START_TIME + "=" + value)
    ensures ReadQuery(ReadParams(QueryUrl(base, query))) == None
  {
    var h := query.hostnameFilter.value;
    var injected := START_TIME + "=" + value;
    var meant := query.(hostnameFilter := Some(name));
    assert h == name + ['&'] + injected;
    assert '&' !in START_TIME && '=' !in START_TIME && '#' !in START_TIME;
    SplitAtSeparator(name, injected, '&');
    SplitNoSeparator(injected, '&');
    SplitPairOfPair(START_TIME, value);
    ReadParamsOfQueryUrl(base, query);
    HostnameReadBack(query, h);
    var ps := ReadParams(QueryUrl(base, query));
    var pieces := Split(h, '&');
    assert pieces[1..] == [injected];
    assert ps[3] == ps[3..][0];
    ExtraPairRead(ps, meant, (START_TIME, value));
    ReadQueryParams(meant);
    ReadQueryRejectsRepeat(QueryParams(meant), value);
  }

  /** A hostname such as `web-01&region=eu` is silently cut: the receiving
      side reads a query that filters on `web-01`. */
  lemma InjectedUnknownKeyTruncates(base: string, query: MetricQuery, name: string, key: string, value: string)
    requires '?' !in base && '#' !in base
    requires '&' !in name && '#' !in name && '+' !in name && '%' !in name
    requires '\t' !in name && '\n' !in name && '\r' !in name
    requires '&' !in key && '=' !in key && '#' !in key && '+' !in key && '%' !in key
    requires '\t' !in key && '\n' !in key && '\r' !in key
    requires '&' !in value && '#' !in value
    requires key != START_TIME && key != END_TIME && key != HOSTNAME_FILTER
    requires query.hostnameFilter == Some(name + "&" + key + "=" + value)
    ensures ReadQuery(ReadParams(QueryUrl(base, query))) == Some(query.(hostnameFilter := Some(name)))
  {
    var h := query.hostnameFilter.value;
    var extra := key + "=" + value;
    var meant := query.(hostnameFilter := Some(name));
    assert h == name + ['&'] + extra;
    SplitAtSeparator(name, extra, '&');
    SplitNoSeparator(extra, '&');
    SplitPairOfPair(key, value);
    ReadParamsOfQueryUrl(base, query);
    HostnameReadBack(query, h);
    var ps := ReadParams(QueryUrl(base, query));
    var pieces := Split(h, '&');
    assert pieces[1..] == [extra];
    assert ps[3] == ps[3..][0];
    ExtraPairRead(ps, meant, (key, value));
    ReadQueryParams(meant);
    ReadQueryIgnoresUnknown(QueryParams(meant), (key, value));
  }

  // ---------------------------------------------------------------------------
  // The three calls

  /** `submit_metric`: POST the point as JSON to `/metrics`; an error exactly
      when no response arrives or its status is not 2xx. */
  method SubmitMetric(metric: MetricPoint, send: Request -> Reply<()>) returns (r: Result<(), RestError>)
    ensures var reply := send(Request(Post, METRICS_URL, Some(metric)));
      && (r.Ok? <==> reply.Reply? && IsSuccess(reply.status))
      && (reply.Unreachable? ==> r == Err(TransportFailed))
      && (reply.Reply? && !IsSuccess(reply.status) ==> r == Err(StatusFailed(reply.status)))
  {
    var reply := send(Request(Post, METRICS_URL, Some(metric)));
    if reply.Unreachable? {
      return Err(TransportFailed);
    }
    if !IsSuccess(reply.status) {
      return Err(StatusFailed(reply.status));
    }
    return Ok(());
  }

  /** `query_metrics`: GET the query URL on `/metrics`; the decoded points on a
      2xx reply, otherwise the failure that stopped it. */
  method QueryMetrics(query: MetricQuery, send: Request -> Reply<seq<MetricPoint>>)
    returns (r: Result<seq<MetricPoint>, RestError>)
    ensures var reply := send(Request(Get, QueryUrl(METRICS_URL, query), None));
      && (r.Ok? <==> reply.Reply? && IsSuccess(reply.status) && reply.body.Some?)
      && (r.Ok? ==> r.value == reply.body.value)
      && (reply.Unreachable? ==> r == Err(TransportFailed))
      && (reply.Reply? && !IsSuccess(reply.status) ==> r == Err(StatusFailed(reply.status)))
      && (reply.Reply? && IsSuccess(reply.status) && reply.body.None? ==> r == Err(DecodeFailed))
  {
    var url := BuildQueryUrl(METRICS_URL, query);
    var reply := send(Request(Get, url, None));
    if reply.Unreachable? {
      return Err(TransportFailed);
    }
    if !IsSuccess(reply.status) {
      return Err(StatusFailed(reply.status));
    }
    if reply.body.None? {
      return Err(DecodeFailed);
    }
    return Ok(reply.body.value);
  }

  /** `get_statistics`: the same query URL on `/statistics`, and the same
      handling of the reply. */
  method GetStatistics(query: MetricQuery, send: Request -> Reply<MetricStatistics>)
    returns (r: Result<MetricStatistics, RestError>)
    ensures var reply := send(Request(Get, QueryUrl(STATISTICS_URL, query), None));
      && (r.Ok? <==> reply.Reply? && IsSuccess(reply.status) && reply.body.Some?)
      && (r.Ok? ==> r.value == reply.body.value)
      && (reply.Unreachable? ==> r == Err(TransportFailed))
      && (reply.Reply? && !IsSuccess(reply.status) ==> r == Err(StatusFailed(reply.status)))
      && (reply.Reply? && IsSuccess(reply.status) && reply.body.None? ==> r == Err(DecodeFailed))
  {
    var url := BuildQueryUrl(STATISTICS_URL, query);
    var reply := send(Request(Get, url, None));
    if reply.Unreachable? {
      return Err(TransportFailed);
    }
    if !IsSuccess(reply.status) {
      return Err(StatusFailed(reply.status));
    }
    if reply.body.None? {
      return Err(DecodeFailed);
    }
    return Ok(reply.body.value);
  }
}
