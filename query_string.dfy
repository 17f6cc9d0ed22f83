/** How the receiving side reads a URL's query (the `application/x-www-form-urlencoded`
    parsing behind axum's `Query` extractor and serde): the query is what follows
    the first `?` up to a `#`, its segments are separated by `&`, and a segment is
    split into key and value at its first `=`. Percent- and `+`-decoding are not
    modelled, nor is the normalisation the client's URL parser applies. This is the inverse the REST client's URLs are checked against. */
module QueryString {
  import opened Common
  import opened Decimal
  import opened Metrics

  /** The field names of the query parameters. */
  const START_TIME: string := "start_time"
  const END_TIME: string := "end_time"
  const HOSTNAME_FILTER: string := "hostname_filter"

  /** Index of the first `c` in `s`. */
  function IndexOf(s: string, c: char): (k: nat)
    requires c in s
    ensures k < |s| && s[k] == c && c !in s[..k]
    decreases |s|
  {
    if s[0] == c then 0 else 1 + IndexOf(s[1..], c)
  }

  /** `s` cut at every `sep`: n separators give n + 1 pieces, none holding `sep`. */
  function Split(s: string, sep: char): (parts: seq<string>)
    ensures |parts| >= 1
    ensures forall i :: 0 <= i < |parts| ==> sep !in parts[i]
    decreases |s|
  {
    if s == [] then [""]
    else
      var rest := Split(s[1..], sep);
      if s[0] == sep then [""] + rest else [[s[0]] + rest[0]] + rest[1..]
  }

  /** Text without the separator is glued to the first piece of what follows. */
  lemma {:induction false} SplitPrefix(a: string, t: string, sep: char)
    requires sep !in a
    ensures Split(a + t, sep) == [a + Split(t, sep)[0]] + Split(t, sep)[1..]
    decreases |a|
  {
    if a == [] {
      assert a + t == t;
      assert a + Split(t, sep)[0] == Split(t, sep)[0];
    } else {
      assert (a + t)[0] == a[0];
      assert (a + t)[1..] == a[1..] + t;
      SplitPrefix(a[1..], t, sep);
      assert [a[0]] + (a[1..] + Split(t, sep)[0]) == a + Split(t, sep)[0];
    }
  }

  /** A separator after separator-free text starts a new piece. */
  lemma SplitAtSeparator(a: string, t: string, sep: char)
    requires sep !in a
    ensures Split(a + [sep] + t, sep) == [a] + Split(t, sep)
  {
    assert a + [sep] + t == a + ([sep] + t);
    SplitPrefix(a, [sep] + t, sep);
    assert ([sep] + t)[0] == sep && ([sep] + t)[1..] == t;
    assert Split([sep] + t, sep) == [""] + Split(t, sep);
    assert a + "" == a;
  }

  lemma SplitNoSeparator(a: string, sep: char)
    requires sep !in a
    ensures Split(a, sep) == [a]
  {
    assert a + [] == a;
    SplitPrefix(a, [], sep);
  }

  /** A segment split at its first `=`; a segment without one is a key with an empty value. */
  function SplitPair(segment: string): (pair: (string, string))
    ensures '=' !in pair.0
    ensures '=' in segment ==> segment == pair.0 + "=" + pair.1
    ensures '=' !in segment ==> pair == (segment, "")
  {
    if '=' in segment then
      var k := IndexOf(segment, '=');
      assert segment == segment[..k] + "=" + segment[k + 1..];
      (segment[..k], segment[k + 1..])
    else (segment, "")
  }

  /** A character absent from a segment is absent from its key and its value. */
  lemma SplitPairKeepsOut(segment: string, c: char)
    requires c !in segment
    ensures c !in SplitPair(segment).0 && c !in SplitPair(segment).1
  {
  }

  lemma SplitPairOfPair(key: string, value: string)
    requires '=' !in key
    ensures SplitPair(key + "=" + value) == (key, value)
  {
    var s := key + "=" + value;
    assert s[|key|] == '=';
    assert s[..|key|] == key;
    var k := IndexOf(s, '=');
    assert s[|key| + 1..] == value;
  }

  /** The query of a URL: after the first `?`, up to the `#` that starts the fragment. */
  function QueryPart(url: string): (q: Option<string>)
    ensures q.None? <==> '?' !in url
    ensures q.Some? ==> '#' !in q.value
  {
    if '?' !in url then None
    else
      var q := url[IndexOf(url, '?') + 1..];
      Some(if '#' in q then q[..IndexOf(q, '#')] else q)
  }

  lemma QueryPartOf(base: string, query: string)
    requires '?' !in base && '#' !in base && '#' !in query
    ensures QueryPart(base + "?" + query) == Some(query)
  {
    var url := base + "?" + query;
    assert url[|base|] == '?';
    var k := IndexOf(url, '?');
    assert url[|base| + 1..] == query;
  }

  /** Only the text after the first `?` decides the query. */
  lemma QueryPartIgnoresBase(base1: string, base2: string, rest: string)
    requires '?' !in base1 && '?' !in base2
    ensures QueryPart(base1 + "?" + rest) == QueryPart(base2 + "?" + rest)
  {
    var url1, url2 := base1 + "?" + rest, base2 + "?" + rest;
    assert url1[|base1|] == '?' && url1[..|base1|] == base1;
    assert url2[|base2|] == '?' && url2[..|base2|] == base2;
    assert url1[IndexOf(url1, '?') + 1..] == rest;
    assert url2[IndexOf(url2, '?') + 1..] == rest;
  }

  function SplitPairs(segments: seq<string>): (pairs: seq<(string, string)>)
    ensures |pairs| == |segments|
    decreases |segments|
  {
    if segments == [] then [] else [SplitPair(segments[0])] + SplitPairs(segments[1..])
  }

  lemma {:induction false} SplitPairsAt(segments: seq<string>)
    ensures forall i :: 0 <= i < |segments| ==> SplitPairs(segments)[i] == SplitPair(segments[i])
    decreases |segments|
  {
    if segments != [] {
      SplitPairsAt(segments[1..]);
    }
  }

  /** Reading a concatenation of segments concatenates the readings. */
  lemma {:induction false} SplitPairsAppend(front: seq<string>, rest: seq<string>)
    ensures SplitPairs(front + rest) == SplitPairs(front) + SplitPairs(rest)
    decreases |front|
  {
    if front == [] {
      assert front + rest == rest;
    } else {
      assert (front + rest)[1..] == front[1..] + rest;
      SplitPairsAppend(front[1..], rest);
    }
  }

  /** A pair the reader can produce: no `&` or `#` anywhere, no `=` in the key. */
  predicate PlainPair(pair: (string, string)) {
    '&' !in pair.0 && '&' !in pair.1 && '#' !in pair.0 && '#' !in pair.1 && '=' !in pair.0
  }

  /** Every pair read from a `#`-free query is plain. */
  lemma ParseQueryPlain(query: string)
    requires '#' !in query
    ensures forall i :: 0 <= i < |ParseQuery(query)| ==> PlainPair(ParseQuery(query)[i])
  {
    var segments := Split(query, '&');
    SplitPairsAt(segments);
    forall i | 0 <= i < |segments|
      ensures PlainPair(SplitPairs(segments)[i])
    {
      SplitPairKeepsOut(segments[i], '&');
      assert '#' !in segments[i] by {
        SplitKeepsOut(query, '&', '#');
      }
      SplitPairKeepsOut(segments[i], '#');
    }
  }

  /** A character absent from the text is absent from every piece. */
  lemma {:induction false} SplitKeepsOut(s: string, sep: char, c: char)
    requires c !in s
    ensures forall i :: 0 <= i < |Split(s, sep)| ==> c !in Split(s, sep)[i]
    decreases |s|
  {
    if s != [] {
      SplitKeepsOut(s[1..], sep, c);
    }
  }

  /** The key/value pairs of a query string, in order. */
  function ParseQuery(query: string): seq<(string, string)> {
    SplitPairs(Split(query, '&'))
  }

  /** The key/value pairs the receiving side reads from a URL: none without a
      `?`, at least one with it, and every one of them plain. */
  function ReadParams(url: string): (params: seq<(string, string)>)
    ensures '?' !in url ==> params == []
    ensures '?' in url ==> |params| >= 1
    ensures forall i :: 0 <= i < |params| ==> PlainPair(params[i])
  {
    match QueryPart(url)
    case Some(q) => ParseQueryPlain(q); ParseQuery(q)
    case None => []
  }

  /** One parameter as the sender writes it. */
  function Segment(param: (string, string)): string {
    param.0 + "=" + param.1
  }

  /** The parameters written `key=value`, separated by `&`. */
  function EncodeParams(params: seq<(string, string)>): string
    requires |params| >= 1
    decreases |params|
  {
    if |params| == 1 then Segment(params[0])
    else Segment(params[0]) + "&" + EncodeParams(params[1..])
  }

  /** Appending a parameter appends its segment after an `&`. */
  lemma {:induction false} EncodeParamsAppend(params: seq<(string, string)>, last: (string, string))
    requires |params| >= 1
    ensures EncodeParams(params + [last]) == EncodeParams(params) + "&" + Segment(last)
    decreases |params|
  {
    var all := params + [last];
    if |params| == 1 {
      assert all[1..] == [last];
    } else {
      assert all[1..] == params[1..] + [last];
      EncodeParamsAppend(params[1..], last);
    }
  }

  /** Parameters whose keys hold neither `&` nor `=` and whose values hold no `&`. */
  predicate Unambiguous(params: seq<(string, string)>) {
    forall i :: 0 <= i < |params| ==> '&' !in params[i].0 && '=' !in params[i].0 && '&' !in params[i].1
  }

  /** Reading undoes writing for unambiguous parameters. */
  lemma {:induction false} ParseEncodeParams(params: seq<(string, string)>)
    requires |params| >= 1 && Unambiguous(params)
    ensures ParseQuery(EncodeParams(params)) == params
    decreases |params|
  {
    var first := Segment(params[0]);
    assert '&' !in first by {
      assert first == params[0].0 + ("=" + params[0].1);
    }
    SplitPairOfPair(params[0].0, params[0].1);
    if |params| == 1 {
      SplitNoSeparator(first, '&');
    } else {
      ParseEncodeParams(params[1..]);
      SplitAtSeparator(first, EncodeParams(params[1..]), '&');
      assert [params[0]] + params[1..] == params;
    }
  }

  /** A character other than `&` and `=` that no key or value holds is not in the text. */
  lemma {:induction false} NotInEncodeParams(params: seq<(string, string)>, c: char)
    requires |params| >= 1 && c != '&' && c != '='
    requires forall i :: 0 <= i < |params| ==> c !in params[i].0 && c !in params[i].1
    ensures c !in EncodeParams(params)
    decreases |params|
  {
    assert c !in Segment(params[0]);
    if |params| > 1 {
      NotInEncodeParams(params[1..], c);
    }
  }

  /** The values given for `key`, in order. */
  function Lookup(params: seq<(string, string)>, key: string): (values: seq<string>)
    ensures |values| <= |params|
    decreases |params|
  {
    if params == [] then []
    else (if params[0].0 == key then [params[0].1] else []) + Lookup(params[1..], key)
  }

  /** Appending a pair adds its value to what is found for its key, and
      nothing to what is found for any other key. */
  lemma {:induction false} LookupAppend(params: seq<(string, string)>, last: (string, string), key: string)
    ensures Lookup(params + [last], key)
            == Lookup(params, key) + (if last.0 == key then [last.1] else [])
    decreases |params|
  {
    if params == [] {
      assert [last][1..] == [];
      assert params + [last] == [last];
    } else {
      assert (params + [last])[1..] == params[1..] + [last];
      LookupAppend(params[1..], last, key);
    }
  }

  /** The three field names are different. */
  lemma FieldNamesDistinct()
    ensures START_TIME != END_TIME && START_TIME != HOSTNAME_FILTER && END_TIME != HOSTNAME_FILTER
  {
    assert START_TIME[0] == 's' && END_TIME[0] == 'e' && HOSTNAME_FILTER[0] == 'h';
  }

  /** Deserialising the pairs into a query: `start_time` and `end_time` must
      each occur once and parse as `i64`; `hostname_filter` is optional; a
      repeated field is an error and unknown keys are ignored. */
  function ReadQuery(params: seq<(string, string)>): (r: Option<MetricQuery>)
    ensures r.Some? <==>
              && |Lookup(params, START_TIME)| == 1 && |Lookup(params, END_TIME)| == 1
              && |Lookup(params, HOSTNAME_FILTER)| <= 1
              && ParseInt64(Lookup(params, START_TIME)[0]).Some?
              && ParseInt64(Lookup(params, END_TIME)[0]).Some?
    ensures r.Some? ==>
              && Some(r.value.startTime) == ParseInt64(Lookup(params, START_TIME)[0])
              && Some(r.value.endTime) == ParseInt64(Lookup(params, END_TIME)[0])
              && (r.value.hostnameFilter.Some? <==> |Lookup(params, HOSTNAME_FILTER)| == 1)
              && (r.value.hostnameFilter.Some? ==> r.value.hostnameFilter.value == Lookup(params, HOSTNAME_FILTER)[0])
  {
    var starts := Lookup(params, START_TIME);
    var ends := Lookup(params, END_TIME);
    var hosts := Lookup(params, HOSTNAME_FILTER);
    if |starts| != 1 || |ends| != 1 || |hosts| > 1 then None
    else
      match (ParseInt64(starts[0]), ParseInt64(ends[0]))
      case (Some(s), Some(e)) =>
        Some(MetricQuery(s, e, if hosts == [] then None else Some(hosts[0])))
      case _ => None
  }

  /** A pair whose key is none of the three fields is ignored. */
  lemma ReadQueryIgnoresUnknown(params: seq<(string, string)>, extra: (string, string))
    requires extra.0 != START_TIME && extra.0 != END_TIME && extra.0 != HOSTNAME_FILTER
    ensures ReadQuery(params + [extra]) == ReadQuery(params)
  {
    LookupAppend(params, extra, START_TIME);
    LookupAppend(params, extra, END_TIME);
    LookupAppend(params, extra, HOSTNAME_FILTER);
  }

  /** A second `start_time` makes the whole query unreadable. */
  lemma ReadQueryRejectsRepeat(params: seq<(string, string)>, value: string)
    requires |Lookup(params, START_TIME)| >= 1
    ensures ReadQuery(params + [(START_TIME, value)]) == None
  {
    LookupAppend(params, (START_TIME, value), START_TIME);
  }
}
