/** The server's stream validation (server.js): the per-url verdict cache with
    its 30-minute lifetime, the background scan that validates a bounded number
    of sources, and the request handlers that consult the cache
    (`validated=true` on `/api/categories` and `/api/channels`, and
    `/api/sources`).

    The network is the parameter `probe`, which gives the outcome of an HTTP GET
    of a url (a status, or a failure such as a timeout); the clock is the
    parameter `now`, in milliseconds, one instant per call. */
module Validation {
  import opened Options
  import opened Text
  import opened Sources
  import Queries

  /** `VALIDATION_TTL_MS`: 30 minutes. */
  const ValidationTtlMs := 1000 * 60 * 30
  /** The most urls `/api/sources` checks per request. */
  const MaxSourceChecks := 60

  /** What a GET of a url gives: a response with its status (every status is
      accepted by `validateStatus`), or a failure. */
  datatype Probe = Answered(status: int) | Unreachable

  /** `{ ok, ts, reason }`; the blank-url verdict has no `ts`. */
  datatype Verdict = Verdict(ok: bool, ts: Option<int>, reason: string)

  const EmptyUrl := Verdict(false, None, "empty_url")

  /** The verdict on a fresh probe taken at `now`: statuses 200 to 399 are ok,
      others are reported as `http_<status>`, a failure as
      `timeout_or_network`. */
  function Judge(p: Probe, now: int): (v: Verdict)
    ensures v.ts == Some(now)
    ensures v.ok <==> p.Answered? && 200 <= p.status < 400
    ensures v.reason == "ok" <==> v.ok
  {
    match p
    case Answered(status) =>
      var ok := 200 <= status < 400;
      Verdict(ok, Some(now), if ok then "ok" else "http_" + IntToString(status))
    case Unreachable => Verdict(false, Some(now), "timeout_or_network")
  }

  /** The reason of a failed verdict says what went wrong: two probes whose
      failed verdicts carry the same reason had the same outcome. */
  lemma ReasonIdentifiesFailure(p: Probe, q: Probe, t: int, u: int)
    requires !Judge(p, t).ok && Judge(p, t).reason == Judge(q, u).reason
    ensures p == q
  {
    if p.Answered? {
      HttpReason(p.status);
    }
    if q.Answered? {
      HttpReason(q.status);
    }
    if p.Answered? && q.Answered? {
      var a, b := IntToString(p.status), IntToString(q.status);
      assert ("http_" + a)[5..] == a && ("http_" + b)[5..] == b;
      IntToStringInjective(p.status, q.status);
    }
  }

  lemma HttpReason(status: int)
    ensures "http_" + IntToString(status) != "timeout_or_network"
    ensures "http_" + IntToString(status) != "ok"
  {
    var r := "http_" + IntToString(status);
    assert r[0] == 'h';
  }

  /** A cached verdict younger than the lifetime is reused. */
  predicate Fresh(v: Verdict, now: int) {
    v.ts.Some? && now - v.ts.value < ValidationTtlMs
  }

  /** A verdict and the cache after giving it. */
  datatype Checked = Checked(verdict: Verdict, cache: map<string, Verdict>)

  /** `validateUrl(url)`: blank urls are refused without touching the cache, a
      fresh cached verdict is returned as is, anything else is probed and the
      verdict cached. */
  function Validate(cache: map<string, Verdict>, url: string, now: int, probe: string -> Probe): Checked {
    if Trim(url) == "" then Checked(EmptyUrl, cache)
    else if url in cache && Fresh(cache[url], now) then Checked(cache[url], cache)
    else
      var v := Judge(probe(url), now);
      Checked(v, cache[url := v])
  }

  /** The verdict `validateUrl` would give at `now`. */
  function Effective(cache: map<string, Verdict>, url: string, now: int, probe: string -> Probe): Verdict {
    Validate(cache, url, now, probe).verdict
  }

  /** Only non-blank urls are cached, and every cached verdict has a time. */
  predicate CacheWellFormed(cache: map<string, Verdict>) {
    forall u :: u in cache ==> Trim(u) != "" && cache[u].ts.Some?
  }

  lemma ValidateKeepsWellFormed(cache: map<string, Verdict>, url: string, now: int, probe: string -> Probe)
    requires CacheWellFormed(cache)
    ensures CacheWellFormed(Validate(cache, url, now, probe).cache)
  {
  }

  /** Validating one url does not change what any url would be judged at the
      same instant: the verdict just cached is fresh, and no other entry
      moves. */
  lemma ValidateSettles(cache: map<string, Verdict>, url: string, u: string, now: int, probe: string -> Probe)
    ensures Effective(Validate(cache, url, now, probe).cache, u, now, probe) == Effective(cache, u, now, probe)
  {
  }

  /** Within the lifetime of a verdict the url is not probed again: a later
      validation gives the same verdict whatever the network says by then. */
  lemma CachedVerdictReused(cache: map<string, Verdict>, url: string, now: int, later: int,
                            probe: string -> Probe, probe': string -> Probe)
    requires Trim(url) != ""
    requires CacheWellFormed(cache)
    requires var v := Effective(cache, url, now, probe); later - v.ts.value < ValidationTtlMs
    ensures Validate(Validate(cache, url, now, probe).cache, url, later, probe') ==
            Checked(Effective(cache, url, now, probe), Validate(cache, url, now, probe).cache)
  {
  }

  /** Every url would be judged the same at `now` against either cache. */
  ghost predicate Settled(cache: map<string, Verdict>, cache': map<string, Verdict>, now: int, probe: string -> Probe) {
    forall u :: Effective(cache', u, now, probe) == Effective(cache, u, now, probe)
  }

  /** Whether some source of the list would validate ok at `now`. */
  predicate AnyOk(cache: map<string, Verdict>, sources: seq<Source>, now: int, probe: string -> Probe) {
    exists j :: 0 <= j < |sources| && Effective(cache, sources[j].url, now, probe).ok
  }

  /** A scan of sources and the cache after it. */
  datatype Probed = Probed(cache: map<string, Verdict>, checked: nat, ok: bool)

  /** The loop of `isChannelVerified`: validate the sources in order, stop at
      the first ok one. */
  function FirstOk(cache: map<string, Verdict>, sources: seq<Source>, now: int, probe: string -> Probe): Probed
    decreases |sources|
  {
    if sources == [] then Probed(cache, 0, false)
    else
      var c := Validate(cache, sources[0].url, now, probe);
      if c.verdict.ok then Probed(c.cache, 1, true)
      else
        var rest := FirstOk(c.cache, sources[1..], now, probe);
        Probed(rest.cache, rest.checked + 1, rest.ok)
  }

  /** Scanning sources does not change what any url would be judged ... */
  lemma {:induction false} FirstOkSettles(cache: map<string, Verdict>, sources: seq<Source>, u: string, now: int, probe: string -> Probe)
    ensures Effective(FirstOk(cache, sources, now, probe).cache, u, now, probe) == Effective(cache, u, now, probe)
    decreases |sources|
  {
    if sources != [] {
      var c := Validate(cache, sources[0].url, now, probe);
      ValidateSettles(cache, sources[0].url, u, now, probe);
      if !c.verdict.ok {
        FirstOkSettles(c.cache, sources[1..], u, now, probe);
      }
    }
  }

  lemma FirstOkSettled(cache: map<string, Verdict>, sources: seq<Source>, now: int, probe: string -> Probe)
    ensures Settled(cache, FirstOk(cache, sources, now, probe).cache, now, probe)
  {
    forall u
      ensures Effective(FirstOk(cache, sources, now, probe).cache, u, now, probe) == Effective(cache, u, now, probe)
    {
      FirstOkSettles(cache, sources, u, now, probe);
    }
  }

  /** ... and it succeeds exactly when some source would validate ok. */
  lemma {:induction false} FirstOkSpec(cache: map<string, Verdict>, sources: seq<Source>, now: int, probe: string -> Probe)
    ensures FirstOk(cache, sources, now, probe).ok <==> AnyOk(cache, sources, now, probe)
    decreases |sources|
  {
    if sources != [] {
      var c := Validate(cache, sources[0].url, now, probe);
      if !c.verdict.ok {
        FirstOkSpec(c.cache, sources[1..], now, probe);
        forall j | 0 <= j < |sources| - 1
          ensures Effective(c.cache, sources[1..][j].url, now, probe) == Effective(cache, sources[j + 1].url, now, probe)
        {
          ValidateSettles(cache, sources[0].url, sources[j + 1].url, now, probe);
        }
        if AnyOk(cache, sources, now, probe) {
          var j :| 0 <= j < |sources| && Effective(cache, sources[j].url, now, probe).ok;
          assert j != 0;
          assert Effective(c.cache, sources[1..][j - 1].url, now, probe).ok;
        }
      }
    }
  }

  /** Whether a list of sources has one that validates ok does not depend on
      its order. */
  lemma AnyOkOrderFree(cache: map<string, Verdict>, a: seq<Source>, b: seq<Source>, now: int, probe: string -> Probe)
    requires multiset(a) == multiset(b)
    ensures AnyOk(cache, a, now, probe) <==> AnyOk(cache, b, now, probe)
  {
    if AnyOk(cache, a, now, probe) {
      var j :| 0 <= j < |a| && Effective(cache, a[j].url, now, probe).ok;
      assert a[j] in multiset(b);
      var k :| 0 <= k < |b| && b[k] == a[j];
    }
    if AnyOk(cache, b, now, probe) {
      var j :| 0 <= j < |b| && Effective(cache, b[j].url, now, probe).ok;
      assert b[j] in multiset(a);
      var k :| 0 <= k < |a| && a[k] == b[j];
    }
  }

  /** `isChannelVerified(ch)` answers whether any source of the channel would
      validate ok, whichever order it tries them in. */
  lemma ChannelVerifiedSpec(cache: map<string, Verdict>, ch: Channel, now: int, probe: string -> Probe)
    ensures FirstOk(cache, SortByPriority(ch.sources), now, probe).ok <==> AnyOk(cache, ch.sources, now, probe)
  {
    FirstOkSpec(cache, SortByPriority(ch.sources), now, probe);
    SortSpec(ch.sources);
    AnyOkOrderFree(cache, SortByPriority(ch.sources), ch.sources, now, probe);
  }

  /** The channels of a list that have a source validating ok, in order. */
  function VerifiedOnly(cache: map<string, Verdict>, list: seq<Channel>, now: int, probe: string -> Probe): seq<Channel> {
    if list == [] then []
    else (if AnyOk(cache, list[0].sources, now, probe) then [list[0]] else []) + VerifiedOnly(cache, list[1..], now, probe)
  }

  lemma {:induction false} VerifiedOnlySpec(cache: map<string, Verdict>, list: seq<Channel>, now: int, probe: string -> Probe)
    ensures forall ch :: ch in VerifiedOnly(cache, list, now, probe) <==> ch in list && AnyOk(cache, ch.sources, now, probe)
  {
    if list != [] {
      VerifiedOnlySpec(cache, list[1..], now, probe);
      assert list == [list[0]] + list[1..];
    }
  }

  /** The `validated=true` push loop works channel by channel: the verified
      channels of a concatenation are those of each part, in catalog order. */
  lemma {:induction false} VerifiedOnlyConcat(cache: map<string, Verdict>, a: seq<Channel>, b: seq<Channel>,
                                              now: int, probe: string -> Probe)
    ensures VerifiedOnly(cache, a + b, now, probe) == VerifiedOnly(cache, a, now, probe) + VerifiedOnly(cache, b, now, probe)
  {
    if a == [] {
      assert a + b == b;
    } else {
      var h := if AnyOk(cache, a[0].sources, now, probe) then [a[0]] else [];
      assert (a + b)[0] == a[0] && (a + b)[1..] == a[1..] + b;
      VerifiedOnlyConcat(cache, a[1..], b, now, probe);
      var va, vb := VerifiedOnly(cache, a[1..], now, probe), VerifiedOnly(cache, b, now, probe);
      assert VerifiedOnly(cache, a + b, now, probe) == h + (va + vb);
      assert VerifiedOnly(cache, a, now, probe) == h + va;
      ConcatAssoc(h, va, vb);
    }
  }

  /** One channel is kept exactly when one of its sources validates ok. */
  lemma VerifiedOnlyOne(cache: map<string, Verdict>, ch: Channel, now: int, probe: string -> Probe)
    ensures VerifiedOnly(cache, [ch], now, probe) == if AnyOk(cache, ch.sources, now, probe) then [ch] else []
  {
    assert [ch][1..] == [];
  }

  /** A filtered list and the cache after building it. */
  datatype Filtered = Filtered(cache: map<string, Verdict>, verified: seq<Channel>)

  /** The `validated=true` filter of the handlers: `isChannelVerified` on each
      channel in turn. */
  function VerifyList(cache: map<string, Verdict>, list: seq<Channel>, now: int, probe: string -> Probe): Filtered
    decreases |list|
  {
    if list == [] then Filtered(cache, [])
    else
      var v := FirstOk(cache, SortByPriority(list[0].sources), now, probe);
      var rest := VerifyList(v.cache, list[1..], now, probe);
      Filtered(rest.cache, (if v.ok then [list[0]] else []) + rest.verified)
  }

  /** A filter result behind channels already kept. */
  function Prefixed(kept: seq<Channel>, f: Filtered): Filtered {
    Filtered(f.cache, kept + f.verified)
  }

  /** Filtering from channel `i` on is checking channel `i` and filtering the
      rest. */
  lemma VerifyListStep(cache: map<string, Verdict>, list: seq<Channel>, i: int, kept: seq<Channel>, now: int, probe: string -> Probe)
    requires 0 <= i < |list|
    ensures var v := FirstOk(cache, SortByPriority(list[i].sources), now, probe);
            Prefixed(kept, VerifyList(cache, list[i..], now, probe)) ==
            Prefixed(kept + if v.ok then [list[i]] else [], VerifyList(v.cache, list[i + 1..], now, probe))
  {
    assert list[i..][0] == list[i] && list[i..][1..] == list[i + 1..];
    var v := FirstOk(cache, SortByPriority(list[i].sources), now, probe);
    var head := if v.ok then [list[i]] else [];
    var rest := VerifyList(v.cache, list[i + 1..], now, probe);
    assert VerifyList(cache, list[i..], now, probe) == Filtered(rest.cache, head + rest.verified);
    assert kept + (head + rest.verified) == (kept + head) + rest.verified;
  }

  /** Scanning from source `j` on is validating source `j`, then stopping or
      scanning the rest. */
  lemma {:induction false} AnyOkSettles(cache: map<string, Verdict>, cache': map<string, Verdict>, sources: seq<Source>, now: int, probe: string -> Probe)
    requires Settled(cache, cache', now, probe)
    ensures AnyOk(cache', sources, now, probe) <==> AnyOk(cache, sources, now, probe)
  {
    if AnyOk(cache, sources, now, probe) {
      var j :| 0 <= j < |sources| && Effective(cache, sources[j].url, now, probe).ok;
      assert Effective(cache', sources[j].url, now, probe).ok;
    }
  }

  /** The filter keeps exactly the channels that have a source validating ok at
      `now` against the cache it starts from; the probes it makes on the way do
      not change the answer for later channels. */
  lemma {:induction false} VerifyListSpec(cache: map<string, Verdict>, list: seq<Channel>, now: int, probe: string -> Probe)
    ensures VerifyList(cache, list, now, probe).verified == VerifiedOnly(cache, list, now, probe)
    decreases |list|
  {
    if list != [] {
      var sorted := SortByPriority(list[0].sources);
      var v := FirstOk(cache, sorted, now, probe);
      ChannelVerifiedSpec(cache, list[0], now, probe);
      VerifyListSpec(v.cache, list[1..], now, probe);
      FirstOkSettled(cache, sorted, now, probe);
      VerifiedOnlySettles(cache, v.cache, list[1..], now, probe);
    }
  }

  lemma {:induction false} VerifiedOnlySettles(cache: map<string, Verdict>, cache': map<string, Verdict>, list: seq<Channel>, now: int, probe: string -> Probe)
    requires Settled(cache, cache', now, probe)
    ensures VerifiedOnly(cache', list, now, probe) == VerifiedOnly(cache, list, now, probe)
  {
    if list != [] {
      AnyOkSettles(cache, cache', list[0].sources, now, probe);
      VerifiedOnlySettles(cache, cache', list[1..], now, probe);
    }
  }

  /** The inner loop of `validateSomeSources` for one channel: validate its
      sorted sources until one is ok, counting each validation against the
      overall `limit`. */
  function TrySources(cache: map<string, Verdict>, sources: seq<Source>, checked: nat, limit: int,
                      now: int, probe: string -> Probe): Probed
    decreases |sources|
  {
    if sources == [] || checked >= limit then Probed(cache, checked, false)
    else
      var c := Validate(cache, sources[0].url, now, probe);
      if c.verdict.ok then Probed(c.cache, checked + 1, true)
      else TrySources(c.cache, sources[1..], checked + 1, limit, now, probe)
  }

  lemma TrySourcesStep(cache: map<string, Verdict>, sources: seq<Source>, j: int, checked: nat, limit: int,
                       now: int, probe: string -> Probe)
    requires 0 <= j < |sources| && checked < limit
    ensures var c := Validate(cache, sources[j].url, now, probe);
            TrySources(cache, sources[j..], checked, limit, now, probe) ==
            if c.verdict.ok then Probed(c.cache, checked + 1, true)
            else TrySources(c.cache, sources[j + 1..], checked + 1, limit, now, probe)
  {
    assert sources[j..][0] == sources[j] && sources[j..][1..] == sources[j + 1..];
  }

  /** Where a run of `validateSomeSources` stands. */
  datatype Scan = Scan(cache: map<string, Verdict>, checked: nat, validated: nat)

  /** The outer loop of `validateSomeSources`: each channel in turn, counting
      those with an ok source, and stopping once `limit` validations were
      made. */
  function ScanChannels(st: Scan, channels: seq<Channel>, limit: int, now: int, probe: string -> Probe): Scan
    decreases |channels|
  {
    if channels == [] then st
    else
      var p := TrySources(st.cache, SortByPriority(channels[0].sources), st.checked, limit, now, probe);
      var next := Scan(p.cache, p.checked, st.validated + if p.ok then 1 else 0);
      if p.checked >= limit then next else ScanChannels(next, channels[1..], limit, now, probe)
  }

  function Max(a: int, b: int): int {
    if a < b then b else a
  }

  /** A channel's scan never goes past the limit, and a success cost at least
      one validation. */
  lemma {:induction false} TrySourcesBounds(cache: map<string, Verdict>, sources: seq<Source>, checked: nat, limit: int,
                                            now: int, probe: string -> Probe)
    ensures var p := TrySources(cache, sources, checked, limit, now, probe);
            checked <= p.checked <= Max(checked, limit) && p.checked <= checked + |sources| &&
            (p.ok ==> p.checked > checked)
    decreases |sources|
  {
    if sources != [] && checked < limit {
      var c := Validate(cache, sources[0].url, now, probe);
      if !c.verdict.ok {
        TrySourcesBounds(c.cache, sources[1..], checked + 1, limit, now, probe);
      }
    }
  }

  /** A run validates at most `limit` sources (none when `limit` is not
      positive), and counts at most one channel per validation and per
      channel. */
  lemma {:induction false} ScanBounds(st: Scan, channels: seq<Channel>, limit: int, now: int, probe: string -> Probe)
    ensures var r := ScanChannels(st, channels, limit, now, probe);
            st.checked <= r.checked <= Max(st.checked, limit) &&
            r.validated - st.validated <= r.checked - st.checked &&
            r.validated - st.validated <= |channels|
    decreases |channels|
  {
    if channels != [] {
      var p := TrySources(st.cache, SortByPriority(channels[0].sources), st.checked, limit, now, probe);
      TrySourcesBounds(st.cache, SortByPriority(channels[0].sources), st.checked, limit, now, probe);
      var next := Scan(p.cache, p.checked, st.validated + if p.ok then 1 else 0);
      if p.checked < limit {
        ScanBounds(next, channels[1..], limit, now, probe);
      }
    }
  }

  /** With room for every validation, a channel's scan is `isChannelVerified`. */
  lemma {:induction false} TrySourcesUnlimited(cache: map<string, Verdict>, sources: seq<Source>, checked: nat, limit: int,
                                               now: int, probe: string -> Probe)
    requires checked + |sources| <= limit
    ensures var p := TrySources(cache, sources, checked, limit, now, probe);
            var f := FirstOk(cache, sources, now, probe);
            p.cache == f.cache && p.ok == f.ok && p.checked == checked + f.checked
    decreases |sources|
  {
    if sources != [] {
      var c := Validate(cache, sources[0].url, now, probe);
      if !c.verdict.ok {
        TrySourcesUnlimited(c.cache, sources[1..], checked + 1, limit, now, probe);
      }
    }
  }

  /** A channel's scan that succeeds ends at the first of its sources that
      validates ok: every source before it was validated and failed. */
  lemma {:induction false} TrySourcesStopsAtFirstOk(cache: map<string, Verdict>, sources: seq<Source>, checked: nat,
                                                    limit: int, now: int, probe: string -> Probe)
    ensures var p := TrySources(cache, sources, checked, limit, now, probe);
            p.ok ==>
              var k := p.checked - checked - 1;
              0 <= k < |sources| && Effective(cache, sources[k].url, now, probe).ok &&
              forall j :: 0 <= j < k ==> !Effective(cache, sources[j].url, now, probe).ok
    decreases |sources|
  {
    if sources != [] && checked < limit {
      var c := Validate(cache, sources[0].url, now, probe);
      if !c.verdict.ok {
        var rest := sources[1..];
        TrySourcesStopsAtFirstOk(c.cache, rest, checked + 1, limit, now, probe);
        var p := TrySources(c.cache, rest, checked + 1, limit, now, probe);
        assert TrySources(cache, sources, checked, limit, now, probe) == p;
        if p.ok {
          var k := p.checked - checked - 1;
          assert 1 <= k && sources[k] == rest[k - 1];
          ValidateSettles(cache, sources[0].url, rest[k - 1].url, now, probe);
          forall j | 0 <= j < k
            ensures !Effective(cache, sources[j].url, now, probe).ok
          {
            if j == 0 {
              assert Effective(cache, sources[0].url, now, probe) == c.verdict;
            } else {
              assert sources[j] == rest[j - 1];
              ValidateSettles(cache, sources[0].url, rest[j - 1].url, now, probe);
              assert !Effective(c.cache, rest[j - 1].url, now, probe).ok;
            }
          }
        }
      }
    }
  }

  /** The number of sources of a list of channels. */
  function SourceCount(channels: seq<Channel>): nat {
    if channels == [] then 0 else |channels[0].sources| + SourceCount(channels[1..])
  }

  /** When the limit leaves room for every source, the run's count is the number
      of channels that have a source validating ok. */
  lemma {:induction false} ScanCountsVerified(st: Scan, channels: seq<Channel>, limit: int, now: int, probe: string -> Probe)
    requires st.checked + SourceCount(channels) <= limit
    ensures ScanChannels(st, channels, limit, now, probe).validated == st.validated + |VerifiedOnly(st.cache, channels, now, probe)|
    decreases |channels|
  {
    if channels != [] {
      var rest := channels[1..];
      var p := TrySources(st.cache, SortByPriority(channels[0].sources), st.checked, limit, now, probe);
      ScanFirstChannel(st, channels, limit, now, probe);
      var next := Scan(p.cache, p.checked, st.validated + if p.ok then 1 else 0);
      VerifiedOnlySettles(st.cache, p.cache, rest, now, probe);
      var head := if p.ok then [channels[0]] else [];
      assert VerifiedOnly(st.cache, channels, now, probe) == head + VerifiedOnly(st.cache, rest, now, probe);
      assert |VerifiedOnly(st.cache, channels, now, probe)| == |head| + |VerifiedOnly(p.cache, rest, now, probe)|;
      ScanStep(st, channels, limit, now, probe);
      if p.checked < limit {
        ScanCountsVerified(next, rest, limit, now, probe);
      } else {
        NoSourcesNoneVerified(p.cache, rest, now, probe);
      }
    }
  }

  lemma ScanStep(st: Scan, channels: seq<Channel>, limit: int, now: int, probe: string -> Probe)
    requires channels != []
    ensures var p := TrySources(st.cache, SortByPriority(channels[0].sources), st.checked, limit, now, probe);
            var next := Scan(p.cache, p.checked, st.validated + if p.ok then 1 else 0);
            ScanChannels(st, channels, limit, now, probe) ==
            if p.checked >= limit then next else ScanChannels(next, channels[1..], limit, now, probe)
  {
  }

  /** The first channel of a scan with room for all its sources. */
  lemma ScanFirstChannel(st: Scan, channels: seq<Channel>, limit: int, now: int, probe: string -> Probe)
    requires channels != [] && st.checked + SourceCount(channels) <= limit
    ensures var p := TrySources(st.cache, SortByPriority(channels[0].sources), st.checked, limit, now, probe);
            Settled(st.cache, p.cache, now, probe) &&
            (p.ok <==> AnyOk(st.cache, channels[0].sources, now, probe)) &&
            p.checked + SourceCount(channels[1..]) <= limit
  {
    var sorted := SortByPriority(channels[0].sources);
    SortLength(channels[0].sources);
    TrySourcesUnlimited(st.cache, sorted, st.checked, limit, now, probe);
    ChannelVerifiedSpec(st.cache, channels[0], now, probe);
    FirstOkSettled(st.cache, sorted, now, probe);
    TrySourcesBounds(st.cache, sorted, st.checked, limit, now, probe);
  }

  lemma {:induction false} NoSourcesNoneVerified(cache: map<string, Verdict>, channels: seq<Channel>, now: int, probe: string -> Probe)
    requires SourceCount(channels) == 0
    ensures VerifiedOnly(cache, channels, now, probe) == []
  {
    if channels != [] {
      NoSourcesNoneVerified(cache, channels[1..], now, probe);
    }
  }

  /** `lastValidationSummary`; `lastRun` is the time of the last completed run. */
  datatype Summary = Summary(totalChannels: nat, validatedCount: nat, checkedSources: nat, lastRun: Option<int>)

  /** One label of `SOURCE_REGISTRY`. */
  datatype RegistryEntry = RegistryEntry(key: string, name: string)

  const SourceRegistry := [
    RegistryEntry("public", "Public/Official Streams"),
    RegistryEntry("mirror", "Official Mirrors"),
    RegistryEntry("backup", "Backup Mirrors"),
    RegistryEntry("placeholder", "Not Configured Yet")
  ]

  /** `{ okCount, checked }` of one source label. */
  datatype Tally = Tally(okCount: nat, checked: nat)

  const NoChecks := Tally(0, 0)

  /** `{ key, name, stats: { status, okCount, checked } }` */
  datatype SourceStatus = SourceStatus(status: string, okCount: nat, checked: nat)
  datatype SourceReport = SourceReport(key: string, name: string, stats: SourceStatus)

  /** "success" once a url of the label validated, "fail" when urls were
      checked and none validated, "unknown" when none was checked. */
  function StatusOf(t: Tally): (s: string)
    ensures t.okCount <= t.checked ==>
              (s == "success" <==> t.okCount > 0) &&
              (s == "fail" <==> t.checked > 0 && t.okCount == 0) &&
              (s == "unknown" <==> t.checked == 0)
  {
    if t.okCount > 0 then "success" else if t.checked > 0 then "fail" else "unknown"
  }

  /** The `{ key, url }` pairs of a channel's usable sources, in order. */
  function UrlPairs(sources: seq<Source>): seq<(string, string)> {
    if sources == [] then []
    else
      var last := sources[|sources| - 1];
      UrlPairs(sources[..|sources| - 1]) + if NonBlank(last) then [(last.source, last.url)] else []
  }

  lemma UrlPairsStep(sources: seq<Source>, j: int)
    requires 0 <= j < |sources|
    ensures UrlPairs(sources[..j + 1]) == UrlPairs(sources[..j]) + if NonBlank(sources[j]) then [(sources[j].source, sources[j].url)] else []
  {
    assert sources[..j + 1][..j] == sources[..j];
  }

  /** `urlsToCheck`: the usable sources of every channel, channel by channel. */
  function UrlsToCheck(channels: seq<Channel>): seq<(string, string)> {
    if channels == [] then []
    else UrlsToCheck(channels[..|channels| - 1]) + UrlPairs(channels[|channels| - 1].sources)
  }

  /** The stats of the registry labels before any check. */
  function InitialStats(registry: seq<RegistryEntry>): map<string, Tally> {
    if registry == [] then map[]
    else InitialStats(registry[..|registry| - 1])[registry[|registry| - 1].key := NoChecks]
  }

  /** A tally and the cache after making it. */
  datatype Tallied = Tallied(cache: map<string, Verdict>, stats: map<string, Tally>)

  /** The checking loop of `/api/sources`: validate each url and count it, and
      its success, against its label (a label missing from the stats starts at
      zero). */
  function TallyRun(cache: map<string, Verdict>, stats: map<string, Tally>, pairs: seq<(string, string)>,
                    now: int, probe: string -> Probe): Tallied
    decreases |pairs|
  {
    if pairs == [] then Tallied(cache, stats)
    else
      var c := Validate(cache, pairs[0].1, now, probe);
      TallyRun(c.cache, stats[pairs[0].0 := Count(TallyOf(stats, pairs[0].0), c.verdict.ok)], pairs[1..], now, probe)
  }

  lemma TallyRunStep(cache: map<string, Verdict>, stats: map<string, Tally>, pairs: seq<(string, string)>, i: int,
                     now: int, probe: string -> Probe)
    requires 0 <= i < |pairs|
    ensures var c := Validate(cache, pairs[i].1, now, probe);
            TallyRun(cache, stats, pairs[i..], now, probe) ==
            TallyRun(c.cache, stats[pairs[i].0 := Count(TallyOf(stats, pairs[i].0), c.verdict.ok)], pairs[i + 1..], now, probe)
  {
    assert pairs[i..][0] == pairs[i] && pairs[i..][1..] == pairs[i + 1..];
  }

  /** One more check of a label, and one more success if it validated. */
  function Count(t: Tally, ok: bool): Tally {
    Tally(t.okCount + if ok then 1 else 0, t.checked + 1)
  }

  /** `stats[key] || { okCount: 0, checked: 0 }` */
  function TallyOf(stats: map<string, Tally>, key: string): Tally {
    if key in stats then stats[key] else NoChecks
  }

  /** How many of the pairs carry the label. */
  function CountKey(pairs: seq<(string, string)>, key: string): nat {
    if pairs == [] then 0 else (if pairs[0].0 == key then 1 else 0) + CountKey(pairs[1..], key)
  }

  /** How many of the pairs carry the label and a url that validates ok. */
  function CountOk(cache: map<string, Verdict>, pairs: seq<(string, string)>, key: string, now: int, probe: string -> Probe): (n: nat)
    ensures n <= CountKey(pairs, key)
  {
    if pairs == [] then 0
    else (if pairs[0].0 == key && Effective(cache, pairs[0].1, now, probe).ok then 1 else 0) + CountOk(cache, pairs[1..], key, now, probe)
  }

  lemma {:induction false} CountOkSettles(cache: map<string, Verdict>, cache': map<string, Verdict>, pairs: seq<(string, string)>,
                                          key: string, now: int, probe: string -> Probe)
    requires Settled(cache, cache', now, probe)
    ensures CountOk(cache', pairs, key, now, probe) == CountOk(cache, pairs, key, now, probe)
  {
    if pairs != [] {
      CountOkSettles(cache, cache', pairs[1..], key, now, probe);
    }
  }

  /** After the loop each label has been counted once per url it carries, and
      once more per url of it that validated ok at `now`. */
  lemma {:induction false} TallyRunSpec(cache: map<string, Verdict>, stats: map<string, Tally>, pairs: seq<(string, string)>,
                                        key: string, now: int, probe: string -> Probe)
    ensures var t := TallyOf(TallyRun(cache, stats, pairs, now, probe).stats, key);
            t.checked == TallyOf(stats, key).checked + CountKey(pairs, key) &&
            t.okCount == TallyOf(stats, key).okCount + CountOk(cache, pairs, key, now, probe)
    decreases |pairs|
  {
    if pairs != [] {
      var k := pairs[0].0;
      var c := Validate(cache, pairs[0].1, now, probe);
      var stats' := stats[k := Count(TallyOf(stats, k), c.verdict.ok)];
      assert TallyRun(cache, stats, pairs, now, probe) == TallyRun(c.cache, stats', pairs[1..], now, probe);
      TallyRunSpec(c.cache, stats', pairs[1..], key, now, probe);
      assert TallyOf(stats', key) == if k == key then Count(TallyOf(stats, key), c.verdict.ok) else TallyOf(stats, key);
      forall u
        ensures Effective(c.cache, u, now, probe) == Effective(cache, u, now, probe)
      {
        ValidateSettles(cache, pairs[0].1, u, now, probe);
      }
      CountOkSettles(cache, c.cache, pairs[1..], key, now, probe);
    }
  }

  lemma {:induction false} InitialStatsSpec(registry: seq<RegistryEntry>, key: string)
    ensures TallyOf(InitialStats(registry), key) == NoChecks
  {
    if registry != [] {
      InitialStatsSpec(registry[..|registry| - 1], key);
    }
  }

  /** `SOURCE_REGISTRY.map(...)`: each label with the status of its tally. */
  function Report(registry: seq<RegistryEntry>, stats: map<string, Tally>): (r: seq<SourceReport>)
    ensures |r| == |registry|
    ensures forall i :: 0 <= i < |registry| ==> r[i].key == registry[i].key && r[i].name == registry[i].name
  {
    seq(|registry|, i requires 0 <= i < |registry| =>
      var t := TallyOf(stats, registry[i].key);
      SourceReport(registry[i].key, registry[i].name, SourceStatus(StatusOf(t), t.okCount, t.checked)))
  }

  /** The urls `/api/sources` checks: the first 60 usable ones. */
  function CheckedPairs(channels: seq<Channel>): (r: seq<(string, string)>)
    ensures |r| <= MaxSourceChecks
  {
    var urls := UrlsToCheck(channels);
    urls[..if |urls| < MaxSourceChecks then |urls| else MaxSourceChecks]
  }

  /** What `/api/sources` reports for each label: how many of the checked urls
      carry it, how many of those validate ok at `now`, and the status that
      follows. */
  lemma SourcesReportSpec(cache: map<string, Verdict>, channels: seq<Channel>, now: int, probe: string -> Probe, i: int)
    requires 0 <= i < |SourceRegistry|
    ensures var pairs := CheckedPairs(channels);
            var key := SourceRegistry[i].key;
            var r := Report(SourceRegistry, TallyRun(cache, InitialStats(SourceRegistry), pairs, now, probe).stats)[i];
            r.key == key &&
            r.stats.checked == CountKey(pairs, key) &&
            r.stats.okCount == CountOk(cache, pairs, key, now, probe) &&
            (r.stats.status == "success" <==> CountOk(cache, pairs, key, now, probe) > 0) &&
            (r.stats.status == "fail" <==> CountKey(pairs, key) > 0 && CountOk(cache, pairs, key, now, probe) == 0) &&
            (r.stats.status == "unknown" <==> CountKey(pairs, key) == 0)
  {
    var pairs := CheckedPairs(channels);
    var key := SourceRegistry[i].key;
    TallyRunSpec(cache, InitialStats(SourceRegistry), pairs, key, now, probe);
    InitialStatsSpec(SourceRegistry, key);
  }

  /** The validation state of the server: `validationCache`,
      `validationInProgress` and `lastValidationSummary`, over the fixed
      catalog `CHANNELS`. */
  class Validator {
    const channels: seq<Channel>
    var cache: map<string, Verdict>
    var inProgress: bool
    var summary: Summary

    predicate Valid()
      reads this
    {
      CacheWellFormed(cache) && summary.totalChannels == |channels|
    }

    constructor(channels: seq<Channel>)
      ensures Valid()
      ensures this.channels == channels
      ensures cache == map[] && !inProgress && summary == Summary(|channels|, 0, 0, None)
    {
      this.channels := channels;
      cache := map[];
      inProgress := false;
      summary := Summary(|channels|, 0, 0, None);
    }

    /** `validateUrl(url)` */
    method ValidateUrl(url: string, now: int, probe: string -> Probe) returns (v: Verdict)
      requires Valid()
      modifies this
      ensures Valid()
      ensures Checked(v, cache) == Validate(old(cache), url, now, probe)
      ensures inProgress == old(inProgress) && summary == old(summary)
    {
      if Trim(url) == "" {
        return EmptyUrl;
      }
      if url in cache && Fresh(cache[url], now) {
        return cache[url];
      }
      v := Judge(probe(url), now);
      cache := cache[url := v];
    }

    /** `isChannelVerified(ch)` */
    method IsChannelVerified(ch: Channel, now: int, probe: string -> Probe) returns (verified: bool)
      requires Valid()
      modifies this
      ensures Valid()
      ensures var f := FirstOk(old(cache), SortByPriority(ch.sources), now, probe);
              verified == f.ok && cache == f.cache
      ensures inProgress == old(inProgress) && summary == old(summary)
    {
      var rest := SortByPriority(ch.sources);
      ghost var f := FirstOk(cache, rest, now, probe);
      while rest != []
        invariant Valid() && inProgress == old(inProgress) && summary == old(summary)
        invariant var g := FirstOk(cache, rest, now, probe);
                  f.ok == g.ok && f.cache == g.cache
        decreases |rest|
      {
        ghost var c := Validate(cache, rest[0].url, now, probe);
        var r := ValidateUrl(rest[0].url, now, probe);
        assert r == c.verdict && cache == c.cache;
        if r.ok {
          return true;
        }
        rest := rest[1..];
      }
      return false;
    }

    /** The `validated=true` filter of `/api/categories` and `/api/channels`. */
    method VerifiedChannels(list: seq<Channel>, now: int, probe: string -> Probe) returns (verified: seq<Channel>)
      requires Valid()
      modifies this
      ensures Valid()
      ensures VerifyList(old(cache), list, now, probe) == Filtered(cache, verified)
      ensures inProgress == old(inProgress) && summary == old(summary)
    {
      verified := [];
      var i := 0;
      assert list[i..] == list && verified + VerifyList(cache, list, now, probe).verified == VerifyList(cache, list, now, probe).verified;
      while i < |list|
        invariant 0 <= i <= |list|
        invariant Valid() && inProgress == old(inProgress) && summary == old(summary)
        invariant VerifyList(old(cache), list, now, probe) == Prefixed(verified, VerifyList(cache, list[i..], now, probe))
      {
        var before := cache;
        VerifyListStep(before, list, i, verified, now, probe);
        ghost var v := FirstOk(before, SortByPriority(list[i].sources), now, probe);
        var ok := IsChannelVerified(list[i], now, probe);
        assert ok == v.ok && cache == v.cache;
        if ok {
          verified := verified + [list[i]];
        } else {
          assert verified + [] == verified;
        }
        i := i + 1;
      }
      assert list[i..] == [] && verified + [] == verified;
    }

    /** `validateSomeSources(limit)`: refuses to start while a run is in
      progress; otherwise scans and records the summary, and the in-progress
      flag is down again afterwards. */
    method ValidateSomeSources(limit: int, now: int, probe: string -> Probe)
      requires Valid()
      modifies this
      ensures Valid()
      // Each call runs to completion here, so no call starts while another is
      // in progress; this clause states the guard without a caller reaching it.
      ensures old(inProgress) ==> cache == old(cache) && summary == old(summary) && inProgress
      ensures !old(inProgress) ==>
                var s := ScanChannels(Scan(old(cache), 0, 0), channels, limit, now, probe);
                !inProgress && cache == s.cache &&
                summary == Summary(|channels|, s.validated, s.checked, Some(now))
    {
      if inProgress {
        return;
      }
      inProgress := true;
      var checked: nat := 0;
      var validated: nat := 0;
      var i := 0;
      while i < |channels|
        invariant 0 <= i <= |channels|
        invariant Valid() && inProgress
        invariant ScanChannels(Scan(old(cache), 0, 0), channels, limit, now, probe) ==
                  ScanChannels(Scan(cache, checked, validated), channels[i..], limit, now, probe)
      {
        ghost var before := Scan(cache, checked, validated);
        ghost var rest := channels[i..];
        assert rest[0] == channels[i] && rest[1..] == channels[i + 1..];
        ScanStep(before, rest, limit, now, probe);
        var sorted := SortByPriority(channels[i].sources);
        var channelOk;
        checked, channelOk := TryChannel(sorted, checked, limit, now, probe);
        if channelOk {
          validated := validated + 1;
        }
        if checked >= limit {
          assert ScanChannels(before, rest, limit, now, probe) == Scan(cache, checked, validated);
          break;
        }
        i := i + 1;
      }
      assert i == |channels| ==> channels[i..] == [];
      summary := Summary(|channels|, validated, checked, Some(now));
      inProgress := false;
    }

    /** The inner loop of `validateSomeSources` over one channel's sorted
        sources. */
    method TryChannel(sorted: seq<Source>, checked0: nat, limit: int, now: int, probe: string -> Probe)
      returns (checked: nat, ok: bool)
      requires Valid()
      modifies this
      ensures Valid()
      ensures Probed(cache, checked, ok) == TrySources(old(cache), sorted, checked0, limit, now, probe)
      ensures inProgress == old(inProgress) && summary == old(summary)
    {
      checked, ok := checked0, false;
      var j := 0;
      while j < |sorted|
        invariant 0 <= j <= |sorted|
        invariant Valid() && inProgress == old(inProgress) && summary == old(summary)
        invariant TrySources(old(cache), sorted, checked0, limit, now, probe) ==
                  TrySources(cache, sorted[j..], checked, limit, now, probe)
      {
        if checked >= limit {
          break;
        }
        TrySourcesStep(cache, sorted, j, checked, limit, now, probe);
        checked := checked + 1;
        var r := ValidateUrl(sorted[j].url, now, probe);
        if r.ok {
          ok := true;
          break;
        }
        j := j + 1;
      }
    }

    /** `/api/categories?validated=...` */
    method CategoriesEndpoint(validated: bool, now: int, probe: string -> Probe) returns (cats: seq<string>)
      requires Valid()
      modifies this
      ensures Valid()
      ensures var f := VerifyList(old(cache), channels, now, probe);
              cats == Queries.Categories(if validated then f.verified else channels) &&
              cache == (if validated then f.cache else old(cache))
      ensures inProgress == old(inProgress) && summary == old(summary)
    {
      var list := channels;
      if validated {
        list := VerifiedChannels(channels, now, probe);
      }
      cats := Queries.Categories(list);
    }

    /** `/api/channels?category=...&search=...&validated=...` */
    method ChannelsEndpoint(category: string, search: string, validated: bool, now: int, probe: string -> Probe)
      returns (output: seq<Queries.Listing>)
      requires Valid()
      modifies this
      ensures Valid()
      ensures var m := Queries.MatchingChannels(channels, if category == "" then Queries.All else category, search);
              var f := VerifyList(old(cache), m, now, probe);
              var list := if validated then f.verified else m;
              output == seq(|list|, i requires 0 <= i < |list| => Queries.ChannelListing(list[i])) &&
              cache == (if validated then f.cache else old(cache))
      ensures inProgress == old(inProgress) && summary == old(summary)
    {
      var list := Queries.MatchingChannels(channels, if category == "" then Queries.All else category, search);
      if validated {
        list := VerifiedChannels(list, now, probe);
      }
      output := seq(|list|, i requires 0 <= i < |list| => Queries.ChannelListing(list[i]));
    }

    /** `/api/sources` */
    method SourcesEndpoint(now: int, probe: string -> Probe) returns (sources: seq<SourceReport>)
      requires Valid()
      modifies this
      ensures Valid()
      ensures var t := TallyRun(old(cache), InitialStats(SourceRegistry), CheckedPairs(channels), now, probe);
              sources == Report(SourceRegistry, t.stats) && cache == t.cache
      ensures inProgress == old(inProgress) && summary == old(summary)
    {
      var stats := RegistryStats();
      var urlsToCheck := CollectUrls();
      var maxChecks := if |urlsToCheck| < MaxSourceChecks then |urlsToCheck| else MaxSourceChecks;
      stats := CheckUrls(urlsToCheck[..maxChecks], stats, now, probe);
      sources := Report(SourceRegistry, stats);
    }

    /** The stats object before any check: every registry label at zero. */
    static method RegistryStats() returns (stats: map<string, Tally>)
      ensures stats == InitialStats(SourceRegistry)
    {
      stats := map[];
      var k := 0;
      while k < |SourceRegistry|
        invariant 0 <= k <= |SourceRegistry|
        invariant stats == InitialStats(SourceRegistry[..k])
      {
        assert SourceRegistry[..k + 1][..k] == SourceRegistry[..k];
        stats := stats[SourceRegistry[k].key := NoChecks];
        k := k + 1;
      }
      assert SourceRegistry[..k] == SourceRegistry;
    }

    /** The checking loop of `/api/sources`. */
    method CheckUrls(pairs: seq<(string, string)>, start: map<string, Tally>, now: int, probe: string -> Probe)
      returns (stats: map<string, Tally>)
      requires Valid()
      modifies this
      ensures Valid()
      ensures TallyRun(old(cache), start, pairs, now, probe) == Tallied(cache, stats)
      ensures inProgress == old(inProgress) && summary == old(summary)
    {
      stats := start;
      var i := 0;
      while i < |pairs|
        invariant 0 <= i <= |pairs|
        invariant Valid() && inProgress == old(inProgress) && summary == old(summary)
        invariant TallyRun(old(cache), start, pairs, now, probe) == TallyRun(cache, stats, pairs[i..], now, probe)
      {
        var key, url := pairs[i].0, pairs[i].1;
        TallyRunStep(cache, stats, pairs, i, now, probe);
        var r := ValidateUrl(url, now, probe);
        stats := Bump(stats, key, r.ok);
        i := i + 1;
      }
    }

    /** One check of a url of label `key`: the label's tally, created at zero
        when missing, counts the check and, if the url validated, the success. */
    static method Bump(stats: map<string, Tally>, key: string, ok: bool) returns (stats': map<string, Tally>)
      ensures stats' == stats[key := Count(TallyOf(stats, key), ok)]
    {
      stats' := stats;
      if key !in stats' {
        stats' := stats'[key := NoChecks];
      }
      stats' := stats'[key := Tally(stats'[key].okCount + if ok then 1 else 0, stats'[key].checked + 1)];
    }

    /** The loops that gather `urlsToCheck`. */
    method CollectUrls() returns (urls: seq<(string, string)>)
      ensures urls == UrlsToCheck(channels)
    {
      urls := [];
      var i := 0;
      while i < |channels|
        invariant 0 <= i <= |channels|
        invariant urls == UrlsToCheck(channels[..i])
      {
        var sources := channels[i].sources;
        var j := 0;
        while j < |sources|
          invariant 0 <= j <= |sources|
          invariant urls == UrlsToCheck(channels[..i]) + UrlPairs(sources[..j])
        {
          ghost var done, pairs := UrlsToCheck(channels[..i]), UrlPairs(sources[..j]);
          UrlPairsStep(sources, j);
          if NonBlank(sources[j]) {
            urls := urls + [(sources[j].source, sources[j].url)];
            assert urls == done + (pairs + [(sources[j].source, sources[j].url)]);
          } else {
            assert pairs + [] == pairs;
          }
          j := j + 1;
        }
        assert sources[..j] == sources;
        assert channels[..i + 1][..i] == channels[..i];
        i := i + 1;
      }
      assert channels[..i] == channels;
    }
  }
}
