/** `generate_test_data` (benchmarks/src/lib.rs): the synthetic points every
    benchmark submits. The seeded generator is modelled by the stream of raw
    words it produces (`words(k)` is the k-th), and the clock by the base
    timestamp the caller passes in. */
module TestData {
  import opened Common
  import opened Decimal
  import opened Metrics

  const HOSTNAMES: seq<string> := [
    "web-01", "web-02", "db-primary", "db-replica", "cache-01",
    "api-gateway", "worker-01", "worker-02", "monitoring", "load-balancer"]
  const ENVIRONMENTS: seq<string> := ["prod", "staging", "dev"]
  const REGIONS: seq<string> := ["us-east", "us-west", "eu-central", "ap-southeast"]
  const SERVICES: seq<string> := ["frontend", "backend", "database", "cache", "queue"]

  /** The tag keys of every generated point. */
  const TAG_KEYS: set<string> := {"env", "region", "service", "version"}

  /** Draws the loop body makes for one point: env, region, service, three
      version numbers, timestamp offset, hostname, CPU, memory, disk. */
  const DRAWS_PER_POINT: nat := 11

  /** How many equally spaced values a uniform `f32` draw chooses between. */
  const FLOAT_STEPS: nat := 0x80_0000

  /** A raw word mapped into the half-open integer range `lo..hi`. */
  function Reduce(w: nat, lo: int, hi: int): (x: int)
    requires lo < hi
    ensures lo <= x < hi
  {
    lo + w % (hi - lo)
  }

  /** `fraction` of `width`, for a fraction in [0, 1). */
  function Scale(width: real, fraction: real): (r: real)
    requires width > 0.0 && 0.0 <= fraction < 1.0
    ensures 0.0 <= r < width
  {
    assert width * (1.0 - fraction) > 0.0;
    width * fraction
  }

  /** A raw word mapped into the half-open real range `lo..hi`, in steps of
      `(hi - lo) / FLOAT_STEPS`. */
  function ReduceReal(w: nat, lo: real, hi: real): (x: real)
    requires lo < hi
    ensures lo <= x < hi
  {
    lo + Scale(hi - lo, (w % FLOAT_STEPS) as real / FLOAT_STEPS as real)
  }

  /** The seeded `StdRng`: every draw consumes the next raw word. */
  class Rng {
    const words: nat -> nat
    var pos: nat

    constructor (words: nat -> nat)
      ensures this.words == words && pos == 0
    {
      this.words := words;
      pos := 0;
    }

    /** `rng.gen_range(lo..hi)` on integers. */
    method GenRange(lo: int, hi: int) returns (x: int)
      requires lo < hi
      modifies this
      ensures pos == old(pos) + 1
      ensures x == Reduce(words(old(pos)), lo, hi)
    {
      x := Reduce(words(pos), lo, hi);
      pos := pos + 1;
    }

    /** `rng.gen_range(lo..hi)` on floats. */
    method GenReal(lo: real, hi: real) returns (x: real)
      requires lo < hi
      modifies this
      ensures pos == old(pos) + 1
      ensures x == ReduceReal(words(old(pos)), lo, hi)
    {
      x := ReduceReal(words(pos), lo, hi);
      pos := pos + 1;
    }

    /** `xs.choose(&mut rng).unwrap()`: a uniformly drawn index into a non-empty slice. */
    method Choose(xs: seq<string>) returns (x: string)
      requires |xs| > 0
      modifies this
      ensures pos == old(pos) + 1
      ensures x == xs[Reduce(words(old(pos)), 0, |xs|)]
    {
      var k := GenRange(0, |xs|);
      x := xs[k];
    }
  }

  /** `format!("v{}.{}.{}", major, minor, patch)`. */
  function VersionTag(major: nat, minor: nat, patch: nat): string {
    "v" + NatToString(major) + "." + NatToString(minor) + "." + NatToString(patch)
  }

  /** What a version tag of the generator looks like: `v1.0.0` up to `v2.9.4`. */
  predicate IsVersionTag(s: string) {
    && |s| == 6
    && s[0] == 'v' && '1' <= s[1] <= '2'
    && s[2] == '.' && '0' <= s[3] <= '9'
    && s[4] == '.' && '0' <= s[5] <= '4'
  }

  lemma VersionTagShape(major: nat, minor: nat, patch: nat)
    requires 1 <= major < 3 && minor < 10 && patch < 5
    ensures IsVersionTag(VersionTag(major, minor, patch))
  {
    assert NatToString(major) == [DigitChar(major)];
    assert NatToString(minor) == [DigitChar(minor)];
    assert NatToString(patch) == [DigitChar(patch)];
  }

  /** The tags drawn from the six words starting at `p`. */
  function GeneratedTags(words: nat -> nat, p: nat): map<string, string> {
    map[
      "env" := ENVIRONMENTS[Reduce(words(p), 0, |ENVIRONMENTS|)],
      "region" := REGIONS[Reduce(words(p + 1), 0, |REGIONS|)],
      "service" := SERVICES[Reduce(words(p + 2), 0, |SERVICES|)],
      "version" := VersionTag(Reduce(words(p + 3), 1, 3), Reduce(words(p + 4), 0, 10), Reduce(words(p + 5), 0, 5))]
  }

  /** The i-th point, from the eleven words the i-th iteration draws. */
  function GeneratedPoint(words: nat -> nat, baseTimestamp: Int64, i: nat): MetricPoint
    requires I64_MIN + 3599 <= baseTimestamp && baseTimestamp + i <= I64_MAX
  {
    PointFromDraws(words, DRAWS_PER_POINT * i, baseTimestamp, i)
  }

  /** The point of iteration `i` drawn from the eleven words starting at `p`. */
  function PointFromDraws(words: nat -> nat, p: nat, baseTimestamp: Int64, i: nat): MetricPoint
    requires I64_MIN + 3599 <= baseTimestamp && baseTimestamp + i <= I64_MAX
  {
    var tags := GeneratedTags(words, p);
    MetricPoint(
      baseTimestamp - Reduce(words(p + 6), 0, 3600) + i,
      HOSTNAMES[Reduce(words(p + 7), 0, |HOSTNAMES|)],
      ReduceReal(words(p + 8), 5.0, 95.0),
      Reduce(words(p + 9), 1_000_000_000, 16_000_000_000),
      Reduce(words(p + 10), 100, 10_000),
      tags)
  }

  /** The shape every generated point has, whatever the generator draws. */
  predicate IsTestPoint(m: MetricPoint) {
    && m.tags.Keys == TAG_KEYS
    && m.tags["env"] in ENVIRONMENTS
    && m.tags["region"] in REGIONS
    && m.tags["service"] in SERVICES
    && IsVersionTag(m.tags["version"])
    && m.hostname in HOSTNAMES
    && 5.0 <= m.cpuPercent < 95.0
    && 1_000_000_000 <= m.memoryBytes < 16_000_000_000
    && 100 <= m.diskIoOps < 10_000
  }

  /** Every generated point has the four tag keys, a listed hostname, values in
      the drawn ranges, and a timestamp within the hour before `base + i`. */
  lemma GeneratedPointProperties(words: nat -> nat, baseTimestamp: Int64, i: nat)
    requires I64_MIN + 3599 <= baseTimestamp && baseTimestamp + i <= I64_MAX
    ensures IsTestPoint(GeneratedPoint(words, baseTimestamp, i))
    ensures baseTimestamp - 3599 + i <= GeneratedPoint(words, baseTimestamp, i).timestamp <= baseTimestamp + i
  {
    var p := DRAWS_PER_POINT * i;
    VersionTagShape(Reduce(words(p + 3), 1, 3), Reduce(words(p + 4), 0, 10), Reduce(words(p + 5), 0, 5));
  }

  /** The four `tags.insert` calls of one iteration. */
  method GenerateTags(rng: Rng) returns (tags: map<string, string>)
    modifies rng
    ensures rng.pos == old(rng.pos) + 6
    ensures tags == GeneratedTags(rng.words, old(rng.pos))
  {
    tags := map[];
    var env := rng.Choose(ENVIRONMENTS);
    tags := tags["env" := env];
    var region := rng.Choose(REGIONS);
    tags := tags["region" := region];
    var service := rng.Choose(SERVICES);
    tags := tags["service" := service];
    var major := rng.GenRange(1, 3);
    var minor := rng.GenRange(0, 10);
    var patch := rng.GenRange(0, 5);
    tags := tags["version" := VersionTag(major, minor, patch)];
  }

  /** One iteration of the loop: the tags first, then the point's fields in
      the order the struct literal lists them. */
  method GeneratePoint(rng: Rng, baseTimestamp: Int64, i: nat) returns (metric: MetricPoint)
    requires I64_MIN + 3599 <= baseTimestamp && baseTimestamp + i <= I64_MAX
    modifies rng
    ensures rng.pos == old(rng.pos) + DRAWS_PER_POINT
    ensures metric == PointFromDraws(rng.words, old(rng.pos), baseTimestamp, i)
  {
    var tags := GenerateTags(rng);

    var offset := rng.GenRange(0, 3600);
    var hostname := rng.Choose(HOSTNAMES);
    var cpuPercent := rng.GenReal(5.0, 95.0);
    var memoryBytes := rng.GenRange(1_000_000_000, 16_000_000_000);
    var diskIoOps := rng.GenRange(100, 10_000);
    metric := MetricPoint(baseTimestamp - offset + i, hostname, cpuPercent, memoryBytes, diskIoOps, tags);
  }

  /** `generate_test_data(count)`: `count` points, the i-th drawn by the i-th
      iteration from a generator that starts at the first word. */
  method GenerateTestData(count: Usize, words: nat -> nat, baseTimestamp: Int64) returns (metrics: seq<MetricPoint>)
    requires I64_MIN + 3599 <= baseTimestamp && baseTimestamp + count <= I64_MAX + 1
    ensures |metrics| == count
    ensures forall i :: 0 <= i < count ==> metrics[i] == GeneratedPoint(words, baseTimestamp, i)
    ensures forall i :: 0 <= i < count ==> IsTestPoint(metrics[i])
    ensures forall i :: 0 <= i < count ==>
              baseTimestamp - 3599 + i <= metrics[i].timestamp <= baseTimestamp + i
  {
    var rng := new Rng(words);
    metrics := [];
    var i := 0;
    while i < count
      invariant 0 <= i <= count
      invariant rng.words == words && rng.pos == DRAWS_PER_POINT * i
      invariant |metrics| == i
      invariant forall j :: 0 <= j < i ==> metrics[j] == GeneratedPoint(words, baseTimestamp, j)
    {
      var metric := GeneratePoint(rng, baseTimestamp, i);
      metrics := metrics + [metric];
      i := i + 1;
    }
    forall i | 0 <= i < count
      ensures IsTestPoint(metrics[i])
      ensures baseTimestamp - 3599 + i <= metrics[i].timestamp <= baseTimestamp + i
    {
      GeneratedPointProperties(words, baseTimestamp, i);
    }
  }
}
