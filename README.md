# protobench benchmark client, modelled in Dafny

protobench compares three front ends of one metrics service: REST/JSON, gRPC and
Cap'n Proto. Each front end sends and receives time-stamped host samples
(`MetricPoint`), range queries (`MetricQuery`) and aggregate statistics
(`MetricStatistics`). This project models the part of the benchmark crate that
has logic of its own. That part has two files.

- `benchmarks/src/lib.rs`:
  - the payload-size record;
  - the CPU-cycle estimate;
  - the Cap'n Proto size estimates;
  - the synthetic test-data generator.
- `benchmarks/src/rest_client.rs`:
  - how the REST client writes the URL of each call;
  - how it turns the reply into success or an error.

Modules:

- `Common`: `Option`, `Result` and the Rust integer widths (`i64`, `u64`, `u32`, `usize`).
- `Metrics`: the three records of `shared/src/lib.rs`. The `f32` fields are reals.
- `Utf8`: `str::len`, the number of UTF-8 bytes of a string.
- `Decimal`: how `format!` writes an `i64`, and how the server's `i64` parser reads it back.
- `Benchmarks`:
  - `PayloadSizes::new`;
  - `estimate_cpu_cycles`, as written and corrected;
  - `measure_capnp_metric_size` and `measure_capnp_query_size`.
- `TestData`:
  - `generate_test_data`, with the seeded generator as a class `Rng`;
  - `Rng` holds the stream of raw words and the count of words drawn so far;
  - each draw consumes one word;
  - the clock reading `base_timestamp` is a parameter.
- `QueryString`: how the receiving side reads a URL's query string into key/value pairs and then into a query.
  - This is the partner of the URL builder.
  - It cuts the URL at the first `?` and at `#`.
  - It splits at `&`, then splits each segment at its first `=`.
  - `start_time` and `end_time` must each appear once and parse as `i64`.
  - `hostname_filter` may appear at most once.
  - Any other key is ignored.
- `RestClient`:
  - the URL builder `BuildQueryUrl`;
  - the three calls `SubmitMetric`, `QueryMetrics` and `GetStatistics`.
  - The network is a function parameter `send`. It maps the request the client makes to the reply the client awaits.

`InMemoryStorage` (`shared/src/lib.rs`) has only `new()`. The storage methods
that the services call are not in the code, so no store behaviour is modelled.

## Model

| member | source | states |
|---|---|---|
| Benchmarks.NewPayloadSizes | benchmarks/src/lib.rs:41-47 | keeps the request and response byte counts as given; the total is their sum (the caller keeps the sum within `usize`) |
| Benchmarks.AsNanos | benchmarks/src/lib.rs:68 | `Duration::as_nanos`: the nanoseconds divide back into the whole seconds with the sub-second nanoseconds as remainder, and stay below 2^64 seconds' worth |
| Benchmarks.EstimateCpuCyclesAsWritten | benchmarks/src/lib.rs:65-69 | the estimate as written (release build: `as u64` truncation, wrapping `u64` multiply) never exceeds `u64::MAX / 10^9` |
| Benchmarks.CyclesAreThreePerNano | benchmarks/src/lib.rs:65-69 | while the product fits in `u64` (under about 6.15 s), the estimate is exactly 3 cycles per nanosecond, the 3 GHz the comment assumes |
| Benchmarks.CyclesMonotone | benchmarks/src/lib.rs:65-69 | in that range, a longer duration never gives fewer cycles |
| Benchmarks.CyclesOverflowAtSevenSeconds | benchmarks/src/lib.rs:68 | at 7 s the multiplication wraps: 2 553 255 926 cycles instead of 21e9, fewer than the 18e9 at 6 s |
| Benchmarks.EstimateCpuCycles | benchmarks/src/lib.rs:65-69 | the corrected estimate: 3 cycles per nanosecond, saturating at `u64::MAX` |
| Benchmarks.EstimateCpuCyclesCorrected | benchmarks/src/lib.rs:65-69 | the corrected estimate is monotone over all durations and equals the code as written wherever the latter does not overflow |
| Benchmarks.TagBytesOverRemove | benchmarks/src/lib.rs:134-136 | the order-free tag sum may take any key first |
| Benchmarks.TagBytesOverAtLeast | benchmarks/src/lib.rs:135 | every tag adds at least its 8 bytes of overhead |
| Benchmarks.TagBytesInOrderIsTagBytesOver | benchmarks/src/lib.rs:134-136 | summing `k.len() + v.len() + 8` over distinct keys in any sequence gives the order-free sum over those keys |
| Benchmarks.TagBytesOrderIndependent | benchmarks/src/lib.rs:134-136 | every `HashMap` iteration order gives the same tag sum |
| Benchmarks.CapnpMetricSize | benchmarks/src/lib.rs:129-138 | 56 bytes + the hostname's UTF-8 bytes + the tag sum, whatever the iteration order; at least 56 + hostname bytes + 8 per tag |
| Benchmarks.CapnpMetricSizeOrderIndependent | benchmarks/src/lib.rs:129-138 | two iteration orders of the same point give the same estimate |
| Benchmarks.CapnpQuerySize | benchmarks/src/lib.rs:141-144 | 32 bytes with no filter, 32 + the filter's UTF-8 bytes with one |
| Benchmarks.CapnpQuerySizeOnlyHostname | benchmarks/src/lib.rs:141-144 | the time window never changes the estimate; an empty filter costs as much as none |
| Utf8.ByteLen | benchmarks/src/lib.rs:133 | `str::len` is between 1 and 4 bytes per character |
| Utf8.ByteLenConcat | benchmarks/src/lib.rs:133 | a property of `str::len`: the byte length of a concatenation is the sum of the byte lengths |
| Utf8.ByteLenAscii | benchmarks/src/lib.rs:133 | the byte length equals the character count exactly when the string is ASCII |
| TestData.Reduce | benchmarks/src/lib.rs:204 | an integer draw from `lo..hi` lies in the half-open range |
| TestData.ReduceReal | benchmarks/src/lib.rs:209 | a real draw from `lo..hi` lies in the half-open range |
| TestData.Rng.constructor | benchmarks/src/lib.rs:181 | a seeded generator starts at the first word of its stream |
| TestData.Rng.GenRange | benchmarks/src/lib.rs:204 | `gen_range` on integers consumes one word and maps it into the range |
| TestData.Rng.GenReal | benchmarks/src/lib.rs:209 | `gen_range` on floats consumes one word and maps it into the range |
| TestData.Rng.Choose | benchmarks/src/lib.rs:200 | `choose` consumes one word and returns an element of the non-empty slice |
| TestData.VersionTagShape | benchmarks/src/lib.rs:203-204 | the version tag is `v` + major in 1..2 + `.` + minor in 0..9 + `.` + patch in 0..4 |
| TestData.GenerateTags | benchmarks/src/lib.rs:199-204 | the four `tags.insert` calls draw six words and give exactly the tags that the drawn words determine |
| TestData.GeneratePoint | benchmarks/src/lib.rs:199-213 | one iteration draws eleven words in source order and builds the point they determine |
| TestData.GeneratedPointProperties | benchmarks/src/lib.rs:198-213 | every generated point has exactly the keys env, region, service and version with listed values, a listed hostname, CPU in [5, 95), memory in [1e9, 16e9), disk I/O in [100, 10000), and a timestamp in the hour before `base + i` |
| TestData.GenerateTestData | benchmarks/src/lib.rs:180-219 | returns `count` points; the i-th is the point drawn from words 11i to 11i+10, and every point has the properties above |
| Decimal.IntToString | benchmarks/src/rest_client.rs:29 | `format!` of an `i64`: a leading `-` exactly for negatives, digits otherwise |
| Decimal.ParseInt64 | rest-service/src/main.rs:13-15 | the server's `str::parse::<i64>` of a field: accepts only an optional sign followed by digits; a negative result comes from a leading `-`; plain digits within range read as their value |
| Decimal.Int64RoundTrip | benchmarks/src/rest_client.rs:29 | the server's `i64` parser reads back every number the client writes |
| Decimal.IntToStringInjective | benchmarks/src/rest_client.rs:29 | different numbers are written differently |
| QueryString.QueryPartOf | benchmarks/src/rest_client.rs:28-29 | the receiving side finds exactly the text after the `?` that follows the `?`-free base URL |
| QueryString.QueryPartIgnoresBase | benchmarks/src/rest_client.rs:47-48 | the query part does not depend on the path in front of the `?` |
| QueryString.ParseEncodeParams | benchmarks/src/rest_client.rs:29-32 | pairs written as `key=value` joined by `&` read back as the same pairs when no key holds `&` or `=` and no value holds `&` |
| QueryString.ReadParams | rest-service/src/main.rs:55 | the pairs axum's `Query` extractor reads from a URL: none without a `?`, at least one with it, and no pair holds `&` or `#`, nor a key `=` |
| QueryString.ParseQueryPlain | rest-service/src/main.rs:55 | every pair read from a `#`-free query string is free of `&` and `#`, with no `=` in its key |
| QueryString.ReadQuery | rest-service/src/main.rs:12-17 | serde's deserialisation of `QueryParams`: a query exactly when `start_time` and `end_time` occur once each and parse as `i64`, and `hostname_filter` occurs at most once; the query then carries those values, and a filter exactly when one was given |
| QueryString.ReadQueryIgnoresUnknown | rest-service/src/main.rs:12-17 | a pair whose key is none of the three fields leaves the deserialised query unchanged |
| QueryString.ReadQueryRejectsRepeat | rest-service/src/main.rs:12-17 | a second `start_time` makes deserialisation fail |
| QueryString.LookupAppend | rest-service/src/main.rs:13-17 | an appended pair adds its value to what is found for its own key and nothing to any other key |
| RestClient.BuildQueryUrl | benchmarks/src/rest_client.rs:28-33 | the `push_str` sequence writes the base, `?start_time=..&end_time=..`, and `&hostname_filter=..` exactly when there is a filter |
| RestClient.WindowSegmentsPlain | benchmarks/src/rest_client.rs:29 | neither window segment holds an `&` |
| RestClient.WindowReadBack | benchmarks/src/rest_client.rs:29 | the window's text holds no `#` and reads back as its two pairs |
| RestClient.HostnameSegments | benchmarks/src/rest_client.rs:29-32 | a filtered URL splits into the two window segments, the filter segment up to the hostname's first `&`, and then the hostname's remaining pieces |
| RestClient.HostnameReadBack | benchmarks/src/rest_client.rs:29-32 | the filtered URL's pairs: the window, then `hostname_filter` with the hostname up to its first `&`, then one pair per remaining piece |
| RestClient.QueryUrlReadBack | benchmarks/src/rest_client.rs:28-33 | for any query whose hostname holds no `#`, the receiving side reads the two window values first and parses them back to the query's numbers; the hostname is cut at its first `&` and every further piece becomes a parameter of its own |
| RestClient.ReadQueryParams | rest-service/src/main.rs:13-17 | the parameters of a query deserialise to that query |
| RestClient.QueryUrlRoundTrip | benchmarks/src/rest_client.rs:28-33 | with no `&`, `#`, `+` or `%` in the hostname, no tab, LF or CR in it, and no trailing space or control character (which reqwest's URL parser strips), the receiving side reads back exactly the parameters sent and exactly the query |
| RestClient.StatisticsUrlSameParams | benchmarks/src/rest_client.rs:47-52 | the statistics URL carries the same parameters as the metrics URL |
| RestClient.InjectedFieldRejected | benchmarks/src/rest_client.rs:31-32 | a hostname such as `web-01&start_time=5` repeats a field, so the receiving side reads no query at all |
| RestClient.InjectedUnknownKeyTruncates | benchmarks/src/rest_client.rs:31-32 | a hostname such as `web-01&region=eu` is cut, so the receiving side filters on `web-01` (name and key free of the characters the URL parser strips or the server decodes) |
| RestClient.SubmitMetric | benchmarks/src/rest_client.rs:11-24 | POST of the point to `/metrics`; `Ok` exactly when a reply arrives with a 2xx status; otherwise a transport error, or a status error carrying the status |
| RestClient.QueryMetrics | benchmarks/src/rest_client.rs:26-43 | GET of the query URL on `/metrics`; `Ok` with the decoded points exactly when the status is 2xx and the body decodes; otherwise a transport, status or decode error, each in its own case |
| RestClient.GetStatistics | benchmarks/src/rest_client.rs:45-62 | the same for `/statistics` and a `MetricStatistics` body |

## Left out

- `InMemoryStorage` and the `MetricsService` trait (`shared/src/lib.rs`): the storage is a stub with no logic.
- The REST, gRPC and Cap'n Proto services, and the gRPC and Cap'n Proto clients: they are transport and serialisation glue.
- The four `PayloadMeasurement::measure_payload_size` impls (benchmarks/src/lib.rs:72-99) and `payload_measurement::measure_grpc_metric_size` and `measure_grpc_query_size` (benchmarks/src/lib.rs:105-126): their sizes are computed by serde_json and prost, which are not part of this model.
- `measure_memory` and `benchmark_operation`: they read the global allocator's counters and the clock.
- `main.rs`, the criterion benches, the demo example and the build scripts are not part of this model.
- `StdRng` internals: the ChaCha stream is the abstract `words` function. rand's draws may consume a varying number of words because of rejection sampling; that is not modelled, and each draw here consumes exactly one word. Range reduction is `lo + w mod (hi - lo)` rather than rand's widening-multiply rejection sampling.
- TestData.ReduceReal: the `f32` draw is a real with 2^23 equally spaced steps; `f32` rounding is not modelled.
- The `SystemTime::now()` reading in `generate_test_data` is the `baseTimestamp` parameter.
- TestData.GenerateTestData: requires that `base + count - 1` and `base - 3599` stay within `i64`. Outside that range the source could overflow, depending on the drawn offset (a panic in a debug build).
- Benchmarks.NewPayloadSizes: requires that the sum fits in `usize`. A debug build panics past that and a release build wraps; neither is modelled.
- Benchmarks.CapnpMetricSize: the result is an unbounded `nat`. `usize` overflow of the sum would need strings larger than the address space.
- Benchmarks.CapnpQuerySize: the result is an unbounded `nat`, for the same reason.
- Benchmarks.EstimateCpuCyclesAsWritten: models the release build. A debug build panics on the overflowing multiply instead of wrapping.
- JSON encoding and decoding of request and response bodies: the request carries the value itself, and a reply's body is `Some(value)` when it decodes and `None` when it does not.
- The connection pool (`OnceLock<Client>`) and the async runtime are not modelled.
- QueryString.ReadParams: does not percent-decode or turn `+` into a space, and does not skip empty segments as the server's form decoder does. `QueryUrlRoundTrip` and `InjectedUnknownKeyTruncates` therefore require the hostname text they read back exactly to hold no `+` or `%`.
- QueryString.ReadParams: reads the URL string the client builds, not the one reqwest sends. `Url::parse` (reached through `client.get(&url)`, benchmarks/src/rest_client.rs:35 and 54) removes tabs, line feeds and carriage returns, trims trailing spaces and control characters, and percent-encodes other characters. `QueryUrlRoundTrip` and `InjectedUnknownKeyTruncates` exclude the stripped characters from the text they claim is read back exactly. The hostname pieces that `QueryUrlReadBack` and `HostnameReadBack` describe are the raw, unnormalised text.
- RestClient.QueryUrlReadBack: a `#` in a hostname would end the query part early; that case is excluded by the precondition.

## Findings

| source | as written | input that shows it | evidently intended | confidence | as-written member | corrected member |
|---|---|---|---|---|---|---|
| benchmarks/src/lib.rs:68 | `duration.as_nanos() as u64 * 3_000_000_000` is a `u64` product that overflows once the duration exceeds about 6.15 s; a release build wraps, a debug build panics | `Duration::from_secs(7)` gives 2 553 255 926 cycles instead of 21 000 000 000, fewer than for 6 s | 3 cycles per nanosecond for every duration, computed in `u128` and saturated to `u64` | not executed | Benchmarks.CyclesOverflowAtSevenSeconds | Benchmarks.EstimateCpuCyclesCorrected |
