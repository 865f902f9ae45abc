/** The pure helpers and list building of the HTTP API (server.js):
    `normalizeCategory`, `channelMatchesQuery`, and the bodies of
    `/api/channels`, `/api/channel/:id/alternatives` and `/api/categories` once
    the channel list is fixed (the `validated=true` variants, which consult the
    validation cache, are in the Validation module). */
module Queries {
  import opened Options
  import opened Text
  import opened Sources
  import opened StringOrder

  const General := "general"
  const All := "all"

  /** `normalizeCategory(cat)`: a missing or empty category is "general"; the
      text is then trimmed and lower-cased. */
  function NormalizeCategory(cat: string): (r: string)
    ensures NoUpper(r) && IsTrimmed(r)
  {
    var c := if cat == "" then General else cat;
    TrimIdempotent(c);
    TrimLower(c);
    Lower(Trim(c))
  }

  /** The empty category becomes "general", and a category of nothing but
      white space becomes the empty string. */
  lemma NormalizeCategoryCases(cat: string)
    ensures cat == "" ==> NormalizeCategory(cat) == General
    ensures NormalizeCategory(cat) == "" <==> cat != "" && AllSpace(cat)
  {
    if cat == "" {
      assert IsTrimmed(General) && NoUpper(General);
      TrimOfTrimmed(General);
      LowerIdempotent(General);
    }
  }

  /** Normalising a normalised category changes nothing, unless the first
      normalisation produced the empty string ... */
  lemma NormalizeCategoryIdempotent(cat: string)
    requires NormalizeCategory(cat) != ""
    ensures NormalizeCategory(NormalizeCategory(cat)) == NormalizeCategory(cat)
  {
    var r := NormalizeCategory(cat);
    TrimOfTrimmed(r);
    LowerIdempotent(r);
  }

  /** ... which happens for a blank category: "  " normalises to "" and "" to
      "general", so `normalizeCategory` is not idempotent. */
  lemma NormalizeCategoryBlank(cat: string)
    requires cat != "" && AllSpace(cat)
    ensures NormalizeCategory(cat) == ""
    ensures NormalizeCategory(NormalizeCategory(cat)) == General
  {
    NormalizeCategoryCases(cat);
    NormalizeCategoryCases("");
  }

  /** `(search || "").trim().toLowerCase()` */
  function SearchKey(search: string): string {
    Lower(Trim(search))
  }

  /** `channelMatchesQuery(ch, category, search)`: the category filter is off
      for "" and "all" and otherwise compares normalised categories; the search
      key, unless empty, must occur in the lower-cased name. */
  predicate ChannelMatchesQuery(ch: Channel, category: string, search: string) {
    var okCat := category == "" || category == All || NormalizeCategory(ch.category) == NormalizeCategory(category);
    var q := SearchKey(search);
    var okSearch := q == "" || Includes(Lower(ch.name), q);
    okCat && okSearch
  }

  /** With the defaults of `/api/channels` (category "all", no search) every
      channel matches, and a search of white space is no search. */
  lemma MatchDefaults(ch: Channel, search: string)
    requires AllSpace(search)
    ensures ChannelMatchesQuery(ch, All, search)
    ensures ChannelMatchesQuery(ch, "", search)
  {
  }

  /** The search ignores letter case and surrounding white space ... */
  lemma SearchKeyIgnoresCaseAndPadding(search: string)
    ensures SearchKey(Lower(search)) == SearchKey(search)
    ensures SearchKey(Trim(search)) == SearchKey(search)
  {
    TrimLower(search);
    LowerIdempotent(Trim(search));
    TrimIdempotent(search);
  }

  /** ... so a query and its lower-cased, trimmed form find the same channels. */
  lemma MatchIgnoresCaseAndPadding(ch: Channel, category: string, search: string)
    ensures ChannelMatchesQuery(ch, category, search) == ChannelMatchesQuery(ch, category, Lower(search))
    ensures ChannelMatchesQuery(ch, category, search) == ChannelMatchesQuery(ch, category, Trim(search))
  {
    SearchKeyIgnoresCaseAndPadding(search);
  }

  /** The category filter compares normalised categories, so an upper-case or
      padded spelling of a channel's category selects it. */
  lemma MatchByCategory(ch: Channel, category: string, search: string)
    requires category != "" && category != All
    ensures ChannelMatchesQuery(ch, category, search) ==>
              NormalizeCategory(ch.category) == NormalizeCategory(category)
    ensures ChannelMatchesQuery(ch, NormalizeCategory(ch.category), search) <==> ChannelMatchesQuery(ch, All, search)
  {
    var n := NormalizeCategory(ch.category);
    NormalizeCategoryCases(ch.category);
    if n != "" {
      NormalizeCategoryIdempotent(ch.category);
    }
  }

  /** A channel whose name contains the trimmed search text, in any letter
      case, is found by it. */
  lemma MatchByName(ch: Channel, search: string, i: int)
    requires OccursAt(ch.name, Trim(search), i)
    ensures ChannelMatchesQuery(ch, All, search)
  {
    LowerOccurs(ch.name, Trim(search), i);
    assert SearchKey(search) == Lower(Trim(search));
  }

  /** `list.filter(keep)` */
  function Filter(list: seq<Channel>, keep: Channel -> bool): seq<Channel> {
    if list == [] then []
    else
      var init := Filter(list[..|list| - 1], keep);
      var last := list[|list| - 1];
      if keep(last) then init + [last] else init
  }

  /** The filter keeps exactly the channels that pass, and no more than it was
      given. */
  lemma {:induction false} FilterSpec(list: seq<Channel>, keep: Channel -> bool)
    ensures |Filter(list, keep)| <= |list|
    ensures forall ch :: ch in Filter(list, keep) <==> ch in list && keep(ch)
  {
    if list != [] {
      var init, last := list[..|list| - 1], list[|list| - 1];
      FilterSpec(init, keep);
      assert list == init + [last];
      forall ch
        ensures ch in Filter(list, keep) <==> ch in list && keep(ch)
      {
        assert ch in list <==> ch in init || ch == last;
      }
    }
  }

  /** A single channel is kept exactly when it passes. */
  lemma FilterOne(x: Channel, keep: Channel -> bool)
    ensures Filter([x], keep) == if keep(x) then [x] else []
  {
    assert [x][..0] == [];
  }

  /** The filter works channel by channel: the kept channels keep their order
      and their repetitions. */
  lemma {:induction false} FilterConcat(a: seq<Channel>, b: seq<Channel>, keep: Channel -> bool)
    ensures Filter(a + b, keep) == Filter(a, keep) + Filter(b, keep)
    decreases |b|
  {
    if b == [] {
      assert a + b == a;
    } else {
      var init, last := b[..|b| - 1], b[|b| - 1];
      var ab := a + b;
      assert ab[..|ab| - 1] == a + init && ab[|ab| - 1] == last;
      FilterConcat(a, init, keep);
      var tail := if keep(last) then [last] else [];
      assert Filter(a, keep) + (Filter(init, keep) + tail) == (Filter(a, keep) + Filter(init, keep)) + tail;
    }
  }

  /** `CHANNELS.filter(ch => channelMatchesQuery(ch, category, search))` */
  function MatchingChannels(channels: seq<Channel>, category: string, search: string): seq<Channel> {
    Filter(channels, ch => ChannelMatchesQuery(ch, category, search))
  }

  /** The filter keeps exactly the matching channels. */
  lemma MatchingChannelsSpec(channels: seq<Channel>, category: string, search: string)
    ensures |MatchingChannels(channels, category, search)| <= |channels|
    ensures forall ch :: ch in MatchingChannels(channels, category, search) <==>
                         ch in channels && ChannelMatchesQuery(ch, category, search)
  {
    FilterSpec(channels, ch => ChannelMatchesQuery(ch, category, search));
  }

  /** One entry of a channel list: `{ id, name, category, logo, url, source }`. */
  datatype Listing = Listing(id: string, name: string, category: string, logo: string, url: string, source: string)

  /** The `/api/channels` entry of a channel: its best source's url and label,
      or empty strings when it has no usable source. */
  function ChannelListing(ch: Channel): Listing {
    var best := PickBestSource(ch);
    Listing(ch.id, ch.name, NormalizeCategory(ch.category), ch.logo,
            if best.Some? then best.value.url else "",
            if best.Some? then best.value.source else "")
  }

  /** The entry shows a source of least priority among the usable ones, the
      earliest of equals, and an empty url exactly when there is none. */
  lemma ChannelListingSpec(ch: Channel)
    ensures ChannelListing(ch).url == "" <==> forall j :: 0 <= j < |ch.sources| ==> !NonBlank(ch.sources[j])
    ensures ChannelListing(ch).url != "" ==>
              exists i :: 0 <= i < |ch.sources| && BestAt(ch.sources, i, ch.sources[i]) &&
                          ChannelListing(ch).url == ch.sources[i].url &&
                          ChannelListing(ch).source == ch.sources[i].source
  {
    PickBestIsBest(ch);
    BestSpec(ch.sources);
    var best := PickBestSource(ch);
    if best.Some? {
      assert Trim(best.value.url) != "";
      var i :| BestAt(ch.sources, i, best.value);
      assert BestAt(ch.sources, i, ch.sources[i]);
    }
  }

  /** The body of `/api/channels` for the unvalidated list: a missing category
      means "all" and a missing search the empty one. */
  function ChannelsList(channels: seq<Channel>, category: string, search: string): (r: seq<Listing>)
    ensures |r| == |MatchingChannels(channels, if category == "" then All else category, search)|
  {
    Listings(MatchingChannels(channels, if category == "" then All else category, search))
  }

  /** `list.map(ch => ({ … }))`: the entry of each channel, in order. */
  function Listings(m: seq<Channel>): (r: seq<Listing>)
    ensures |r| == |m|
  {
    seq(|m|, i requires 0 <= i < |m| => ChannelListing(m[i]))
  }

  lemma ListingsConcat(a: seq<Channel>, b: seq<Channel>)
    ensures Listings(a + b) == Listings(a) + Listings(b)
  {
    var r, ra, rb := Listings(a + b), Listings(a), Listings(b);
    forall i | 0 <= i < |r|
      ensures r[i] == (ra + rb)[i]
    {
      if i < |a| {
        assert (a + b)[i] == a[i];
      } else {
        assert (a + b)[i] == b[i - |a|];
      }
    }
  }

  /** Every listed entry belongs to a matching channel and every matching
      channel is listed. */
  lemma ChannelsListSpec(channels: seq<Channel>, category: string, search: string)
    ensures forall l :: l in ChannelsList(channels, category, search) ==>
              exists ch :: ch in channels && ChannelMatchesQuery(ch, category, search) && l == ChannelListing(ch)
    ensures forall ch :: ch in channels && ChannelMatchesQuery(ch, category, search) ==>
              ChannelListing(ch) in ChannelsList(channels, category, search)
  {
    var cat := if category == "" then All else category;
    MatchingChannelsSpec(channels, cat, search);
    var m := MatchingChannels(channels, cat, search);
    var r := ChannelsList(channels, category, search);
    assert r == Listings(m);
    assert forall i :: 0 <= i < |m| ==> r[i] == ChannelListing(m[i]);
    forall ch | ch in channels
      ensures ChannelMatchesQuery(ch, cat, search) == ChannelMatchesQuery(ch, category, search)
    {
    }
    forall l | l in r
      ensures exists ch :: ch in channels && ChannelMatchesQuery(ch, category, search) && l == ChannelListing(ch)
    {
      var i :| 0 <= i < |r| && r[i] == l;
      assert m[i] in m;
    }
    forall ch | ch in channels && ChannelMatchesQuery(ch, category, search)
      ensures ChannelListing(ch) in r
    {
      var i :| 0 <= i < |m| && m[i] == ch;
      assert r[i] == ChannelListing(ch);
    }
  }

  /** The list is built channel by channel in catalog order: the entries for
      a concatenation are those of each part, one after the other. */
  lemma ChannelsListConcat(a: seq<Channel>, b: seq<Channel>, category: string, search: string)
    ensures ChannelsList(a + b, category, search) == ChannelsList(a, category, search) + ChannelsList(b, category, search)
  {
    var cat := if category == "" then All else category;
    FilterConcat(a, b, ch => ChannelMatchesQuery(ch, cat, search));
    ListingsConcat(MatchingChannels(a, cat, search), MatchingChannels(b, cat, search));
  }

  /** A single channel is listed once, with its entry, exactly when it
      matches. */
  lemma ChannelsListOne(ch: Channel, category: string, search: string)
    ensures ChannelsList([ch], category, search) ==
            if ChannelMatchesQuery(ch, category, search) then [ChannelListing(ch)] else []
  {
    var cat := if category == "" then All else category;
    FilterOne(ch, c => ChannelMatchesQuery(c, cat, search));
    assert ChannelMatchesQuery(ch, cat, search) == ChannelMatchesQuery(ch, category, search);
  }

  /** `CHANNELS.find(c => c.id === id)` */
  function FindChannel(channels: seq<Channel>, id: string): (r: Option<Channel>)
    ensures r.Some? ==> r.value in channels && r.value.id == id
    ensures r.None? <==> forall ch :: ch in channels ==> ch.id != id
  {
    if channels == [] then None
    else if channels[0].id == id then Some(channels[0])
    else FindChannel(channels[1..], id)
  }

  /** `find` answers with the first channel carrying the id: it sits at some
      position, and no channel before it has that id. */
  lemma {:induction false} FindChannelFirst(channels: seq<Channel>, id: string) returns (i: nat)
    requires FindChannel(channels, id).Some?
    ensures i < |channels| && channels[i] == FindChannel(channels, id).value
    ensures forall j :: 0 <= j < i ==> channels[j].id != id
  {
    if channels[0].id == id {
      i := 0;
    } else {
      var k := FindChannelFirst(channels[1..], id);
      i := k + 1;
      forall j | 0 <= j < i
        ensures channels[j].id != id
      {
        if j > 0 {
          assert channels[j] == channels[1..][j - 1];
        }
      }
    }
  }

  /** `{ id, name, category, logo, url, source }` for one source of a channel. */
  function SourceListing(ch: Channel, s: Source): Listing {
    Listing(ch.id, ch.name, NormalizeCategory(ch.category), ch.logo, s.url, s.source)
  }

  /** The usable sources of a channel, in the order the client tries them. */
  function AlternativeSources(ch: Channel): seq<Source> {
    NonBlankOnly(SortByPriority(ch.sources))
  }

  /** The response of `/api/channel/:id/alternatives`: its status and list. */
  datatype Response = Response(status: int, alternatives: seq<Listing>)

  const Ok := 200
  const NotFound := 404

  function Alternatives(channels: seq<Channel>, id: string): (r: Response)
    ensures r.status == Ok || r.status == NotFound
  {
    match FindChannel(channels, id)
    case None => Response(NotFound, [])
    case Some(ch) =>
      var alts := AlternativeSources(ch);
      Response(Ok, seq(|alts|, i requires 0 <= i < |alts| => SourceListing(ch, alts[i])))
  }

  /** An unknown id is answered 404 with an empty list, a known one 200. */
  lemma AlternativesStatus(channels: seq<Channel>, id: string)
    ensures Alternatives(channels, id).status == NotFound <==> forall ch :: ch in channels ==> ch.id != id
    ensures Alternatives(channels, id).status == NotFound ==> Alternatives(channels, id).alternatives == []
  {
  }

  /** The alternatives are exactly the channel's usable sources, sorted by
      priority with ties in catalog order. */
  lemma AlternativeSourcesSpec(ch: Channel, p: int)
    ensures AlternativeSources(ch) == SortByPriority(NonBlankOnly(ch.sources))
    ensures SortedByPriority(AlternativeSources(ch))
    ensures multiset(AlternativeSources(ch)) == multiset(NonBlankOnly(ch.sources))
    ensures WithPriority(AlternativeSources(ch), p) == WithPriority(NonBlankOnly(ch.sources), p)
  {
    SortThenFilter(ch.sources);
    SortSpec(NonBlankOnly(ch.sources));
    SortStable(NonBlankOnly(ch.sources), p);
  }

  /** The first alternative is the source the channel list shows, and there is
      none exactly when the channel list shows an empty url. */
  lemma AlternativesLeadWithBest(channels: seq<Channel>, id: string, ch: Channel)
    requires FindChannel(channels, id) == Some(ch)
    ensures var alts := Alternatives(channels, id).alternatives;
            (alts == [] <==> ChannelListing(ch).url == "") &&
            (alts != [] ==> alts[0].url == ChannelListing(ch).url && alts[0].source == ChannelListing(ch).source)
  {
    FirstNonBlankIsHead(SortByPriority(ch.sources));
    var best := PickBestSource(ch);
    if best.Some? {
      assert Trim(best.value.url) != "";
    }
  }

  /** `list.map(c => normalizeCategory(c.category))` */
  function CategoryNames(list: seq<Channel>): (cats: seq<string>)
    ensures |cats| == |list|
    ensures forall i :: 0 <= i < |list| ==> cats[i] == NormalizeCategory(list[i].category)
  {
    seq(|list|, i requires 0 <= i < |list| => NormalizeCategory(list[i].category))
  }

  /** The body of `/api/categories` for a fixed channel list: the distinct
      normalised categories, sorted. */
  function Categories(list: seq<Channel>): seq<string> {
    SortStrings(Dedup(CategoryNames(list)))
  }

  /** The categories are strictly increasing (so each appears once) and are
      exactly the normalised categories of the listed channels. */
  lemma CategoriesSpec(list: seq<Channel>)
    ensures StrictlySorted(Categories(list))
    ensures forall c :: c in Categories(list) <==> exists i :: 0 <= i < |list| && NormalizeCategory(list[i].category) == c
  {
    var cats := CategoryNames(list);
    DedupSpec(cats);
    SortStringsSpec(Dedup(cats));
    var r := Categories(list);
    forall c
      ensures c in r <==> exists i :: 0 <= i < |list| && NormalizeCategory(list[i].category) == c
    {
      assert c in r <==> c in multiset(r);
      assert c in Dedup(cats) <==> c in multiset(Dedup(cats));
      if c in cats {
        var i :| 0 <= i < |cats| && cats[i] == c;
        assert NormalizeCategory(list[i].category) == c;
      }
      if exists i :: 0 <= i < |list| && NormalizeCategory(list[i].category) == c {
        var i :| 0 <= i < |list| && NormalizeCategory(list[i].category) == c;
        assert cats[i] == c;
      }
    }
  }

  /** Listing the same channels in another order gives the same categories. */
  lemma CategoriesOrderFree(list: seq<Channel>, other: seq<Channel>)
    requires multiset(list) == multiset(other)
    ensures Categories(list) == Categories(other)
  {
    CategoriesSpec(list);
    CategoriesSpec(other);
    forall c
      ensures c in Categories(list) <==> c in Categories(other)
    {
      if i :| 0 <= i < |list| && NormalizeCategory(list[i].category) == c {
        assert list[i] in multiset(other);
        var j :| 0 <= j < |other| && other[j] == list[i];
      }
      if i :| 0 <= i < |other| && NormalizeCategory(other[i].category) == c {
        assert other[i] in multiset(list);
        var j :| 0 <= j < |list| && list[j] == other[i];
      }
    }
    StrictlySortedUnique(Categories(list), Categories(other));
  }
}
