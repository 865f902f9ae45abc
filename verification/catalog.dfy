/** The build script's catalog construction (`loadChannelsFromSources` and
    `saveChannelsToCache` in build-channels.js).

    The records of all sources are concatenated in source order and grouped by
    the key of their name (`Names.NormalizeName`) in a `Map` that keeps keys in
    order of first appearance. Each group's first member is the unique channel
    that is kept; the others are recorded as its alternatives under the
    primary's id. */
module Catalog {
  import opened Options
  import opened JsMaps
  import opened Names
  import opened Playlist

  /** `channelGroups`: key -> the records with that key, in input order. */
  type Groups = JsMap<string, seq<Record>>

  function Key(r: Record): string {
    NormalizeName(r.name)
  }

  /** One iteration of the grouping loop (build-channels.js:122-130): create the
      group on first sight of its key, then append the record to it. */
  function AddToGroup(g: Groups, r: Record): (g': Groups)
    requires g.Valid()
    ensures g'.Valid()
    ensures g'.values == g.values[Key(r) := (if Key(r) in g.values then g.values[Key(r)] else []) + [r]]
    ensures g'.keys == if Key(r) in g.values then g.keys else g.keys + [Key(r)]
  {
    var k := Key(r);
    var g1 := if g.Has(k) then g else g.Set(k, []);
    g1.Set(k, g1.values[k] + [r])
  }

  /** The groups after the records, one after another. */
  function GroupAll(records: seq<Record>): (g: Groups)
    ensures g.Valid()
  {
    if records == [] then Empty()
    else AddToGroup(GroupAll(records[..|records| - 1]), records[|records| - 1])
  }

  /** The grouping loop (build-channels.js:119-131). */
  method GroupByName(records: seq<Record>) returns (channelGroups: Groups)
    ensures channelGroups.Valid()
    ensures channelGroups == GroupAll(records)
  {
    channelGroups := Empty();
    for i := 0 to |records|
      invariant channelGroups == GroupAll(records[..i])
    {
      ghost var prev := channelGroups;
      assert records[..i + 1][..i] == records[..i] && records[..i + 1][i] == records[i];
      assert GroupAll(records[..i + 1]) == AddToGroup(prev, records[i]);
      var normalizedName := NormalizeName(records[i].name);
      if !channelGroups.Has(normalizedName) {
        channelGroups := channelGroups.Set(normalizedName, []);
      }
      channelGroups := channelGroups.Set(normalizedName, channelGroups.values[normalizedName] + [records[i]]);
      assert channelGroups.keys == AddToGroup(prev, records[i]).keys;
      assert channelGroups.values == AddToGroup(prev, records[i]).values;
    }
    assert records[..|records|] == records;
  }

  /** The distinct keys of the records. */
  function KeySet(records: seq<Record>): set<string> {
    if records == [] then {} else KeySet(records[..|records| - 1]) + {Key(records[|records| - 1])}
  }

  /** The records with key `k`, in input order. */
  function Members(records: seq<Record>, k: string): seq<Record> {
    if records == [] then []
    else Members(records[..|records| - 1], k) + if Key(records[|records| - 1]) == k then [records[|records| - 1]] else []
  }

  /** The key of every record is among the keys. */
  lemma {:induction false} KeySetHasAll(records: seq<Record>)
    ensures forall m :: 0 <= m < |records| ==> Key(records[m]) in KeySet(records)
  {
    if records != [] {
      var init := records[..|records| - 1];
      KeySetHasAll(init);
      assert forall m :: 0 <= m < |init| ==> records[m] == init[m];
    }
  }

  /** The position of the first record with key `k`. */
  function FirstIndex(records: seq<Record>, k: string): (i: nat)
    requires k in KeySet(records)
    ensures i < |records| && Key(records[i]) == k
  {
    var init := records[..|records| - 1];
    if k in KeySet(init) then FirstIndex(init, k) else |records| - 1
  }

  /** No record before `FirstIndex(records, k)` has key `k`. */
  lemma {:induction false} FirstIndexIsFirst(records: seq<Record>, k: string)
    requires k in KeySet(records)
    ensures forall m :: 0 <= m < FirstIndex(records, k) ==> Key(records[m]) != k
  {
    var init := records[..|records| - 1];
    var f := FirstIndex(records, k);
    if k in KeySet(init) {
      FirstIndexIsFirst(init, k);
      assert f == FirstIndex(init, k);
    } else {
      KeySetHasAll(init);
      assert f == |init|;
    }
    forall m | 0 <= m < f
      ensures Key(records[m]) != k
    {
      assert records[m] == init[m];
    }
  }

  lemma KeySetSnoc(init: seq<Record>, r: Record)
    ensures KeySet(init + [r]) == KeySet(init) + {Key(r)}
  {
    assert (init + [r])[..|init|] == init;
  }

  lemma FirstIndexSnoc(init: seq<Record>, r: Record, x: string)
    requires x in KeySet(init + [r])
    ensures x in KeySet(init) ==> FirstIndex(init + [r], x) == FirstIndex(init, x)
    ensures x !in KeySet(init) ==> FirstIndex(init + [r], x) == |init|
  {
    assert (init + [r])[..|init|] == init;
  }

  /** The distinct keys of the records, in order of first appearance. */
  function FirstKeys(records: seq<Record>): seq<string> {
    if records == [] then []
    else
      var init := records[..|records| - 1];
      var k := Key(records[|records| - 1]);
      if k in KeySet(init) then FirstKeys(init) else FirstKeys(init) + [k]
  }

  /** The groups are exactly the records sorted by key: there is one group per
      key that occurs, in order of first appearance, ... */
  lemma {:induction false} GroupKeys(records: seq<Record>)
    ensures GroupAll(records).values.Keys == KeySet(records)
    ensures GroupAll(records).keys == FirstKeys(records)
  {
    if records != [] {
      var n := |records|;
      var init, r := records[..n - 1], records[n - 1];
      assert records == init + [r];
      GroupKeys(init);
      KeySetSnoc(init, r);
    }
  }

  /** ... it holds exactly the records with that key in input order, ... */
  lemma {:induction false} GroupMembers(records: seq<Record>)
    ensures forall k :: k in GroupAll(records).values ==> GroupAll(records).values[k] == Members(records, k)
  {
    if records != [] {
      var n := |records|;
      var init, r := records[..n - 1], records[n - 1];
      assert records == init + [r];
      GroupMembers(init);
      GroupKeys(init);
      if Key(r) !in KeySet(init) {
        MembersAbsent(init, Key(r));
      }
    }
  }

  /** ... and the groups come in order of their keys' first appearance. */
  lemma GroupOrder(records: seq<Record>)
    ensures forall k :: k in GroupAll(records).keys ==> k in KeySet(records)
    ensures forall a :: 0 <= a < |GroupAll(records).keys| - 1 ==>
              FirstIndex(records, GroupAll(records).keys[a]) < FirstIndex(records, GroupAll(records).keys[a + 1])
  {
    GroupKeys(records);
    FirstKeysOrder(records);
  }

  lemma {:induction false} FirstKeysOrder(records: seq<Record>)
    ensures forall k :: k in FirstKeys(records) ==> k in KeySet(records)
    ensures forall a :: 0 <= a < |FirstKeys(records)| - 1 ==>
              FirstIndex(records, FirstKeys(records)[a]) < FirstIndex(records, FirstKeys(records)[a + 1])
  {
    if records != [] {
      var n := |records|;
      var init, r := records[..n - 1], records[n - 1];
      FirstKeysOrder(init);
      assert records == init + [r];
      KeySetSnoc(init, r);
      var ks0, ks := FirstKeys(init), FirstKeys(records);
      forall a | 0 <= a < |ks| - 1
        ensures FirstIndex(records, ks[a]) < FirstIndex(records, ks[a + 1])
      {
        assert ks[a] == ks0[a];
        FirstIndexSnoc(init, r, ks[a]);
        FirstIndexSnoc(init, r, ks[a + 1]);
      }
    }
  }

  /** Each record is in the group of its own key and in no other. */
  lemma {:induction false} MembersSpec(records: seq<Record>, k: string, x: Record)
    ensures x in Members(records, k) <==> x in records && Key(x) == k
  {
    if records != [] {
      var init := records[..|records| - 1];
      assert records == init + [records[|records| - 1]];
      MembersSpec(init, k, x);
    }
  }

  /** A key that occurs has a non-empty group, led by the first record with
      that key. */
  lemma {:induction false} MembersHead(records: seq<Record>, k: string)
    requires k in KeySet(records)
    ensures |Members(records, k)| >= 1
    ensures Members(records, k)[0] == records[FirstIndex(records, k)]
  {
    var init := records[..|records| - 1];
    assert records == init + [records[|records| - 1]];
    if k in KeySet(init) {
      MembersHead(init, k);
    } else {
      MembersAbsent(init, k);
    }
  }

  lemma {:induction false} MembersAbsent(records: seq<Record>, k: string)
    requires k !in KeySet(records)
    ensures Members(records, k) == []
  {
    if records != [] {
      var init := records[..|records| - 1];
      assert records == init + [records[|records| - 1]];
      MembersAbsent(init, k);
    }
  }

  /** Two records fall in the same group exactly when their names have the
      same key: the group of `y` holds `x` if and only if their keys agree. */
  lemma SameGroupIffSameKey(records: seq<Record>, x: Record, y: Record)
    requires x in records && y in records
    ensures NormalizeName(y.name) in GroupAll(records).values
    ensures x in GroupAll(records).values[NormalizeName(y.name)] <==> NormalizeName(x.name) == NormalizeName(y.name)
  {
    GroupKeys(records);
    GroupMembers(records);
    var i :| 0 <= i < |records| && records[i] == y;
    KeySetHasAll(records);
    MembersSpec(records, Key(y), x);
  }

  /** The sum of the sizes of the groups listed in `keys`. */
  function TotalSize(keys: seq<string>, values: map<string, seq<Record>>): nat
    requires forall k :: k in keys ==> k in values
  {
    if keys == [] then 0
    else TotalSize(keys[..|keys| - 1], values) + |values[keys[|keys| - 1]]|
  }

  lemma {:induction false} TotalSizeUpdate(keys: seq<string>, values: map<string, seq<Record>>, k: string, v: seq<Record>)
    requires forall x :: x in keys ==> x in values
    requires Distinct(keys)
    ensures TotalSize(keys, values[k := v]) ==
            if k in keys then TotalSize(keys, values) - |values[k]| + |v| else TotalSize(keys, values)
  {
    if keys != [] {
      var init := keys[..|keys| - 1];
      assert keys == init + [keys[|keys| - 1]];
      TotalSizeUpdate(init, values, k, v);
    }
  }

  /** No record is lost or counted twice: the group sizes add up to the number
      of records. */
  lemma {:induction false} GroupSizesAddUp(records: seq<Record>)
    ensures TotalSize(GroupAll(records).keys, GroupAll(records).values) == |records|
  {
    if records != [] {
      var n := |records|;
      var init, r := records[..n - 1], records[n - 1];
      GroupSizesAddUp(init);
      var g0 := GroupAll(init);
      var k := Key(r);
      var v := (if k in g0.values then g0.values[k] else []) + [r];
      TotalSizeUpdate(g0.keys, g0.values, k, v);
      if k !in g0.values {
        var keys := g0.keys + [k];
        assert keys[..|keys| - 1] == g0.keys;
      }
    }
  }

  /** There are as many groups as distinct keys. */
  lemma GroupCount(records: seq<Record>)
    ensures |GroupAll(records).keys| == |KeySet(records)|
  {
    GroupKeys(records);
    var g := GroupAll(records);
    assert (set k | k in g.keys) == KeySet(records);
    DistinctCard(g.keys);
  }

  lemma {:induction false} DistinctCard(s: seq<string>)
    requires Distinct(s)
    ensures |set x | x in s| == |s|
  {
    if s != [] {
      var init := s[..|s| - 1];
      assert s == init + [s[|s| - 1]];
      DistinctCard(init);
      assert (set x | x in s) == (set x | x in init) + {s[|s| - 1]};
    }
  }

  /** The channels kept: each group's first member (build-channels.js:135-138). */
  function Primaries(es: seq<(string, seq<Record>)>): seq<Record> {
    if es == [] then []
    else
      var last := es[|es| - 1];
      Primaries(es[..|es| - 1]) + if |last.1| > 0 then [last.1[0]] else []
  }

  /** `channelAlternatives` after the groups: a group of more than one record
      stores its other members under its primary's id (build-channels.js:140-142);
      a later group whose primary has the same id replaces the entry. */
  function RecordAlternatives(m: JsMap<int, seq<Record>>, es: seq<(string, seq<Record>)>): (m': JsMap<int, seq<Record>>)
    requires m.Valid()
    ensures m'.Valid()
  {
    if es == [] then m
    else
      var last := es[|es| - 1];
      var before := RecordAlternatives(m, es[..|es| - 1]);
      if |last.1| > 1 then before.Set(last.1[0].id, last.1[1..]) else before
  }

  lemma GroupStep(m: JsMap<int, seq<Record>>, es: seq<(string, seq<Record>)>, i: int)
    requires m.Valid() && 0 <= i < |es|
    ensures Primaries(es[..i + 1]) == Primaries(es[..i]) + if |es[i].1| > 0 then [es[i].1[0]] else []
    ensures RecordAlternatives(m, es[..i + 1]) ==
              var before := RecordAlternatives(m, es[..i]);
              if |es[i].1| > 1 then before.Set(es[i].1[0].id, es[i].1[1..]) else before
  {
    assert es[..i + 1][..i] == es[..i];
  }

  lemma {:induction false} PrimariesOfNonEmpty(es: seq<(string, seq<Record>)>)
    requires forall i :: 0 <= i < |es| ==> |es[i].1| >= 1
    ensures |Primaries(es)| == |es|
    ensures forall i :: 0 <= i < |es| ==> Primaries(es)[i] == es[i].1[0]
  {
    if es != [] {
      PrimariesOfNonEmpty(es[..|es| - 1]);
    }
  }

  /** Every group is non-empty and led by the first record with its key. */
  lemma GroupHeads(records: seq<Record>)
    ensures forall i :: 0 <= i < |GroupAll(records).keys| ==>
              && GroupAll(records).keys[i] in KeySet(records)
              && |GroupAll(records).values[GroupAll(records).keys[i]]| >= 1
              && GroupAll(records).values[GroupAll(records).keys[i]][0] == records[FirstIndex(records, GroupAll(records).keys[i])]
  {
    GroupKeys(records);
    GroupMembers(records);
    var g := GroupAll(records);
    forall i | 0 <= i < |g.keys|
      ensures |g.values[g.keys[i]]| >= 1 && g.values[g.keys[i]][0] == records[FirstIndex(records, g.keys[i])]
    {
      MembersHead(records, g.keys[i]);
    }
  }

  /** The unique channels: one per distinct key, in order of first appearance,
      each being the first record with its key. */
  lemma UniqueChannels(records: seq<Record>)
    ensures var g := GroupAll(records);
            var u := Primaries(g.Entries());
            && |u| == |g.keys| == |KeySet(records)|
            && forall a :: 0 <= a < |u| ==> g.keys[a] in KeySet(records) && u[a] == records[FirstIndex(records, g.keys[a])]
  {
    GroupHeads(records);
    GroupCount(records);
    PrimariesOfNonEmpty(GroupAll(records).Entries());
  }

  /** A group of more than one record leaves its other members, in input order,
      as the alternatives of its primary's id, unless a later group's primary
      has the same id. */
  lemma {:induction false} AlternativesWritten(m: JsMap<int, seq<Record>>, es: seq<(string, seq<Record>)>, i: int)
    requires m.Valid()
    requires 0 <= i < |es| && |es[i].1| > 1
    requires forall j :: i < j < |es| && |es[j].1| > 1 ==> es[j].1[0].id != es[i].1[0].id
    ensures es[i].1[0].id in RecordAlternatives(m, es).values
    ensures RecordAlternatives(m, es).values[es[i].1[0].id] == es[i].1[1..]
  {
    if i < |es| - 1 {
      AlternativesWritten(m, es[..|es| - 1], i);
    }
  }

  /** An id that no group of more than one record has as its primary's id keeps
      whatever entry it had (or none). */
  lemma {:induction false} AlternativesUntouched(m: JsMap<int, seq<Record>>, es: seq<(string, seq<Record>)>, id: int)
    requires m.Valid()
    requires forall j :: 0 <= j < |es| && |es[j].1| > 1 ==> es[j].1[0].id != id
    ensures id in RecordAlternatives(m, es).values <==> id in m.values
    ensures id in m.values ==> RecordAlternatives(m, es).values[id] == m.values[id]
  {
    if es != [] {
      AlternativesUntouched(m, es[..|es| - 1], id);
    }
  }

  /** The alternatives of the primary `a`, whose group is `[a, a2]`, are lost when
      a later group `[b, b2]` has a primary with the same id: only `[b2]` is left
      under that id. This happens across sources, whose ids all start at 1. */
  lemma AlternativesOverwritten(a: Record, a2: Record, b: Record, b2: Record)
    requires a.id == b.id && a2 != b2
    ensures var es := [("a", [a, a2]), ("b", [b, b2])];
            var alts := RecordAlternatives(Empty(), es);
            alts.values[a.id] == [b2] != [a2]
  {
    var es := [("a", [a, a2]), ("b", [b, b2])];
    AlternativesWritten(Empty(), es, 1);
  }

  /** A playlist source of the build (`STREAMING_SOURCES`). */
  datatype StreamSource = StreamSource(name: string, url: string, sourceType: string, priority: int)

  const StreamingSources: seq<StreamSource> := [
    StreamSource("IPTV-org Main", "https://iptv-org.github.io/iptv/index.m3u", "iptv", 1),
    StreamSource("IPTV-org US", "https://iptv-org.github.io/iptv/countries/us.m3u", "iptv", 2),
    StreamSource("IPTV-org IN", "https://iptv-org.github.io/iptv/countries/in.m3u", "iptv", 3),
    StreamSource("Free-TV", "https://raw.githubusercontent.com/Free-TV/IPTV/master/playlist.m3u8", "iptv", 4)
  ]

  /** How the download of one source ended: its body, or the error's message. */
  datatype FetchOutcome = Fetched(body: string) | Failed(message: string)

  /** A `sourceStats` entry. */
  datatype SourceStat = SourceStat(channels: nat, status: string, error: Option<string>, sourceType: string)

  /** The entry for one source (build-channels.js:99-103, 108-113). */
  function StatFor(source: StreamSource, outcome: FetchOutcome): SourceStat {
    match outcome
    case Fetched(body) => SourceStat(|Parse(body, source.name, source.sourceType)|, "success", None, source.sourceType)
    case Failed(message) => SourceStat(0, "failed", Some(message), source.sourceType)
  }

  /** The records one source contributes: none when its download failed. */
  function Contribution(source: StreamSource, outcome: FetchOutcome): seq<Record> {
    match outcome
    case Fetched(body) => Parse(body, source.name, source.sourceType)
    case Failed(_) => []
  }

  /** The records of the sources, concatenated in source order. */
  function Loaded(sources: seq<StreamSource>, outcomes: seq<FetchOutcome>): seq<Record>
    requires |sources| == |outcomes|
  {
    if sources == [] then []
    else
      var n := |sources| - 1;
      Loaded(sources[..n], outcomes[..n]) + Contribution(sources[n], outcomes[n])
  }

  /** `sourceStats` after the sources. */
  function Stats(sources: seq<StreamSource>, outcomes: seq<FetchOutcome>): (m: JsMap<string, SourceStat>)
    requires |sources| == |outcomes|
    ensures m.Valid()
  {
    if sources == [] then Empty()
    else
      var n := |sources| - 1;
      Stats(sources[..n], outcomes[..n]).Set(sources[n].name, StatFor(sources[n], outcomes[n]))
  }

  function SumChannels(sources: seq<StreamSource>, outcomes: seq<FetchOutcome>): nat
    requires |sources| == |outcomes|
  {
    if sources == [] then 0
    else
      var n := |sources| - 1;
      SumChannels(sources[..n], outcomes[..n]) + StatFor(sources[n], outcomes[n]).channels
  }

  function SourceNames(sources: seq<StreamSource>): seq<string> {
    seq(|sources|, i requires 0 <= i < |sources| => sources[i].name)
  }

  /** The counts reported in `sourceStats` add up to the number of records
      loaded. */
  lemma {:induction false} LoadedCount(sources: seq<StreamSource>, outcomes: seq<FetchOutcome>)
    requires |sources| == |outcomes|
    ensures |Loaded(sources, outcomes)| == SumChannels(sources, outcomes)
  {
    if sources != [] {
      var n := |sources| - 1;
      LoadedCount(sources[..n], outcomes[..n]);
    }
  }

  /** The `sourceStats` entries the sources produce, in order. */
  function StatEntries(sources: seq<StreamSource>, outcomes: seq<FetchOutcome>): (es: seq<(string, SourceStat)>)
    requires |sources| == |outcomes|
    ensures |es| == |sources|
    ensures forall i :: 0 <= i < |sources| ==> es[i] == (sources[i].name, StatFor(sources[i], outcomes[i]))
  {
    seq(|sources|, i requires 0 <= i < |sources| => (sources[i].name, StatFor(sources[i], outcomes[i])))
  }

  /** `sourceStats` is the map read from its entries. */
  lemma {:induction false} StatsFromEntries(sources: seq<StreamSource>, outcomes: seq<FetchOutcome>)
    requires |sources| == |outcomes|
    ensures Stats(sources, outcomes) == FromEntries(StatEntries(sources, outcomes))
  {
    if sources != [] {
      var n := |sources| - 1;
      StatsFromEntries(sources[..n], outcomes[..n]);
      var es := StatEntries(sources, outcomes);
      assert es[..n] == StatEntries(sources[..n], outcomes[..n]);
    }
  }

  /** With distinct source names, `sourceStats` lists the sources in order and
      each one's entry reports its own outcome: the parsed count with status
      `success`, or 0 with status `failed` and the error message. */
  lemma StatsBySource(sources: seq<StreamSource>, outcomes: seq<FetchOutcome>)
    requires |sources| == |outcomes|
    requires Distinct(SourceNames(sources))
    ensures Stats(sources, outcomes).keys == SourceNames(sources)
    ensures forall i :: 0 <= i < |sources| ==> sources[i].name in Stats(sources, outcomes).values
    ensures forall i :: 0 <= i < |sources| ==>
              Stats(sources, outcomes).values[sources[i].name] == StatFor(sources[i], outcomes[i])
  {
    var es := StatEntries(sources, outcomes);
    StatsFromEntries(sources, outcomes);
    assert Firsts(es) == SourceNames(sources);
    FromDistinctEntries(es);
    forall i | 0 <= i < |sources|
      ensures sources[i].name in Stats(sources, outcomes).values
    {
      assert sources[i].name == Stats(sources, outcomes).keys[i];
    }
  }

  lemma StreamingSourcesDistinct()
    ensures Distinct(SourceNames(StreamingSources))
  {
    var ns := SourceNames(StreamingSources);
    assert ns == ["IPTV-org Main", "IPTV-org US", "IPTV-org IN", "Free-TV"];
  }

  lemma LoadStep(sources: seq<StreamSource>, outcomes: seq<FetchOutcome>, i: int)
    requires |sources| == |outcomes| && 0 <= i < |sources|
    ensures Loaded(sources[..i + 1], outcomes[..i + 1]) == Loaded(sources[..i], outcomes[..i]) + Contribution(sources[i], outcomes[i])
    ensures Stats(sources[..i + 1], outcomes[..i + 1]) == Stats(sources[..i], outcomes[..i]).Set(sources[i].name, StatFor(sources[i], outcomes[i]))
  {
    assert sources[..i + 1][..i] == sources[..i] && outcomes[..i + 1][..i] == outcomes[..i];
  }

  /** The cache file's contents (build-channels.js:154-160), without the write. */
  datatype CacheSnapshot = CacheSnapshot(
    timestamp: string,
    channels: seq<Record>,
    validatedChannels: seq<Record>,
    channelAlternatives: seq<(int, seq<Record>)>,
    sourceStats: JsMap<string, SourceStat>)

  /** The build script's module state: `channelAlternatives` and `sourceStats`. */
  class ChannelBuilder {
    var channelAlternatives: JsMap<int, seq<Record>>
    var sourceStats: JsMap<string, SourceStat>

    predicate Valid()
      reads this
    {
      channelAlternatives.Valid() && sourceStats.Valid()
    }

    constructor()
      ensures Valid()
      ensures channelAlternatives == Empty() && sourceStats == Empty()
    {
      channelAlternatives := Empty();
      sourceStats := Empty();
    }

    /** `loadChannelsFromSources` (build-channels.js:50-148), with the outcome of
        each source's download given. */
    method LoadChannelsFromSources(outcomes: seq<FetchOutcome>) returns (uniqueChannels: seq<Record>)
      requires Valid()
      requires |outcomes| == |StreamingSources|
      modifies this
      ensures Valid()
      ensures sourceStats == Stats(StreamingSources, outcomes)
      ensures uniqueChannels == Primaries(GroupAll(Loaded(StreamingSources, outcomes)).Entries())
      ensures channelAlternatives ==
                RecordAlternatives(old(channelAlternatives), GroupAll(Loaded(StreamingSources, outcomes)).Entries())
    {
      var allChannels := LoadSources(outcomes);
      var channelGroups := GroupByName(allChannels);
      uniqueChannels := BuildUniqueChannels(channelGroups);
    }

    /** The download loop (build-channels.js:80-115): records concatenated in
        source order, `sourceStats` rebuilt from scratch. */
    method LoadSources(outcomes: seq<FetchOutcome>) returns (allChannels: seq<Record>)
      requires Valid()
      requires |outcomes| == |StreamingSources|
      modifies this
      ensures Valid()
      ensures allChannels == Loaded(StreamingSources, outcomes)
      ensures sourceStats == Stats(StreamingSources, outcomes)
      ensures channelAlternatives == old(channelAlternatives)
    {
      var sources := StreamingSources[..4];
      assert sources == StreamingSources;
      allChannels := [];
      sourceStats := Empty();
      for i := 0 to |sources|
        invariant Valid()
        invariant allChannels == Loaded(sources[..i], outcomes[..i])
        invariant sourceStats == Stats(sources[..i], outcomes[..i])
        invariant channelAlternatives == old(channelAlternatives)
      {
        LoadStep(sources, outcomes, i);
        var source := sources[i];
        match outcomes[i]
        case Fetched(body) =>
          var sourceChannels := ParseM3U(body, source.name, source.sourceType);
          allChannels := allChannels + sourceChannels;
          sourceStats := sourceStats.Set(source.name,
            SourceStat(|sourceChannels|, "success", None, source.sourceType));
        case Failed(message) =>
          sourceStats := sourceStats.Set(source.name,
            SourceStat(0, "failed", Some(message), source.sourceType));
      }
      assert sources[..|sources|] == sources && outcomes[..|outcomes|] == outcomes;
    }

    /** The loop over the groups (build-channels.js:134-144): keep each group's
        first member and store the others under its id. */
    method BuildUniqueChannels(channelGroups: Groups) returns (uniqueChannels: seq<Record>)
      requires Valid() && channelGroups.Valid()
      modifies this
      ensures Valid()
      ensures uniqueChannels == Primaries(channelGroups.Entries())
      ensures channelAlternatives == RecordAlternatives(old(channelAlternatives), channelGroups.Entries())
      ensures sourceStats == old(sourceStats)
    {
      var entries := channelGroups.Entries();
      uniqueChannels := [];
      for i := 0 to |entries|
        invariant Valid()
        invariant uniqueChannels == Primaries(entries[..i])
        invariant channelAlternatives == RecordAlternatives(old(channelAlternatives), entries[..i])
        invariant sourceStats == old(sourceStats)
      {
        GroupStep(old(channelAlternatives), entries, i);
        var alternatives := entries[i].1;
        if |alternatives| > 0 {
          var primaryChannel := alternatives[0];
          uniqueChannels := uniqueChannels + [primaryChannel];
          if |alternatives| > 1 {
            channelAlternatives := channelAlternatives.Set(primaryChannel.id, alternatives[1..]);
          }
        }
      }
      assert entries[..|entries|] == entries;
    }

    /** The data `saveChannelsToCache(channels)` writes: reading its
        `channelAlternatives` entries back with `new Map(...)` restores the map,
        order included, and no channel is marked validated yet. */
    function Snapshot(timestamp: string, channels: seq<Record>): (s: CacheSnapshot)
      reads this
      requires Valid()
      ensures FromEntries(s.channelAlternatives) == channelAlternatives
      ensures s.validatedChannels == [] && s.channels == channels && s.timestamp == timestamp
      ensures s.sourceStats == sourceStats
    {
      EntriesRoundTrip(channelAlternatives);
      CacheSnapshot(timestamp, channels, [], channelAlternatives.Entries(), sourceStats)
    }
  }
}
