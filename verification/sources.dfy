/** The server's channel sources and the order in which they are tried
    (server.js). A channel lists several sources, each with an optional
    priority; every consumer sorts a copy of them by ascending priority, a
    missing priority counting as 999, with a stable sort. */
module Sources {
  import opened Options
  import opened Text

  /** One stream of a channel: `{ source, priority, url }`. */
  datatype Source = Source(source: string, priority: Option<int>, url: string)

  /** A catalog entry: `{ id, name, category, logo, sources }`; a missing text
      field is the empty string and missing `sources` the empty list. */
  datatype Channel = Channel(id: string, name: string, category: string, logo: string, sources: seq<Source>)

  const DefaultPriority := 999

  /** `s.priority ?? 999` */
  function Pri(s: Source): int {
    s.priority.GetOr(DefaultPriority)
  }

  /** `s.url && String(s.url).trim() !== ""` */
  predicate NonBlank(s: Source) {
    Trim(s.url) != ""
  }

  predicate SortedByPriority(s: seq<Source>) {
    forall i, j :: 0 <= i < j < |s| ==> Pri(s[i]) <= Pri(s[j])
  }

  /** Puts `x` after every element whose priority is not larger than its own,
      which keeps the sort stable. */
  function Insert(x: Source, s: seq<Source>): seq<Source> {
    if s == [] then [x]
    else if Pri(x) < Pri(s[0]) then [x] + s
    else [s[0]] + Insert(x, s[1..])
  }

  /** The sorted copy of the sources. */
  function SortByPriority(s: seq<Source>): seq<Source> {
    if s == [] then [] else Insert(s[|s| - 1], SortByPriority(s[..|s| - 1]))
  }

  /** No source of `s` has a priority below `b`. */
  predicate AtLeast(s: seq<Source>, b: int) {
    forall i :: 0 <= i < |s| ==> b <= Pri(s[i])
  }

  lemma {:induction false} InsertAtLeast(x: Source, s: seq<Source>, b: int)
    requires AtLeast(s, b) && b <= Pri(x)
    ensures AtLeast(Insert(x, s), b)
  {
    if s != [] && Pri(x) >= Pri(s[0]) {
      InsertAtLeast(x, s[1..], b);
    }
  }

  lemma {:induction false} InsertSorted(x: Source, s: seq<Source>)
    requires SortedByPriority(s)
    ensures SortedByPriority(Insert(x, s))
  {
    if s != [] {
      if Pri(x) < Pri(s[0]) {
        assert AtLeast(s, Pri(s[0]));
      } else {
        var rest := Insert(x, s[1..]);
        InsertSorted(x, s[1..]);
        InsertAtLeast(x, s[1..], Pri(s[0]));
        assert Insert(x, s) == [s[0]] + rest;
      }
    }
  }

  lemma {:induction false} InsertPermutes(x: Source, s: seq<Source>)
    ensures multiset(Insert(x, s)) == multiset(s) + multiset{x}
  {
    if s != [] {
      if Pri(x) < Pri(s[0]) {
        assert Insert(x, s) == [x] + s;
      } else {
        var t := s[1..];
        InsertPermutes(x, t);
        assert Insert(x, s) == [s[0]] + Insert(x, t);
        assert s == [s[0]] + t;
        assert multiset(Insert(x, s)) == multiset{s[0]} + multiset(Insert(x, t));
      }
    }
  }

  /** The sort orders by priority and neither loses nor invents a source. */
  lemma SortSpec(s: seq<Source>)
    ensures SortedByPriority(SortByPriority(s))
    ensures multiset(SortByPriority(s)) == multiset(s)
  {
    SortSorted(s);
    SortPermutes(s);
  }

  /** Sorting a list with one more source at its end inserts that source
      into the sorted list. */
  lemma SortSnoc(init: seq<Source>, x: Source)
    ensures SortByPriority(init + [x]) == Insert(x, SortByPriority(init))
  {
    var s := init + [x];
    assert s[..|s| - 1] == init && s[|s| - 1] == x;
  }

  lemma {:induction false} SortSorted(s: seq<Source>)
    ensures SortedByPriority(SortByPriority(s))
  {
    if s != [] {
      var init, x := s[..|s| - 1], s[|s| - 1];
      SortSorted(init);
      InsertSorted(x, SortByPriority(init));
    }
  }

  lemma {:induction false} SortPermutes(s: seq<Source>)
    ensures multiset(SortByPriority(s)) == multiset(s)
  {
    if s != [] {
      var init, x := s[..|s| - 1], s[|s| - 1];
      SortPermutes(init);
      InsertPermutes(x, SortByPriority(init));
      assert s == init + [x];
      SortSnoc(init, x);
      assert multiset(s) == multiset(init) + multiset([x]);
      assert multiset([x]) == multiset{x};
    }
  }

  lemma SortLength(s: seq<Source>)
    ensures |SortByPriority(s)| == |s|
  {
    SortPermutes(s);
    assert |multiset(SortByPriority(s))| == |multiset(s)|;
  }

  /** The sources of priority `p`, in order. */
  function WithPriority(s: seq<Source>, p: int): seq<Source> {
    if s == [] then [] else (if Pri(s[0]) == p then [s[0]] else []) + WithPriority(s[1..], p)
  }

  lemma {:induction false} WithPriorityNone(s: seq<Source>, p: int)
    requires AtLeast(s, p + 1)
    ensures WithPriority(s, p) == []
  {
    if s != [] {
      assert AtLeast(s[1..], p + 1);
      WithPriorityNone(s[1..], p);
    }
  }

  lemma SortedTail(s: seq<Source>)
    requires SortedByPriority(s) && s != []
    ensures SortedByPriority(s[1..]) && AtLeast(s, Pri(s[0]))
  {
  }

  lemma WithPriorityCons(a: Source, s: seq<Source>, p: int)
    ensures WithPriority([a] + s, p) == (if Pri(a) == p then [a] else []) + WithPriority(s, p)
  {
    assert ([a] + s)[0] == a && ([a] + s)[1..] == s;
  }

  lemma {:induction false} InsertStable(x: Source, s: seq<Source>, p: int)
    requires SortedByPriority(s)
    ensures WithPriority(Insert(x, s), p) == WithPriority(s, p) + if Pri(x) == p then [x] else []
  {
    if s == [] {
      var tail := if Pri(x) == p then [x] else [];
      assert Insert(x, s) == [x] + [];
      WithPriorityCons(x, [], p);
      assert tail + [] == tail && [] + tail == tail;
    } else {
      SortedTail(s);
      if Pri(x) < Pri(s[0]) {
        InsertStableFront(x, s, p);
      } else {
        InsertStable(x, s[1..], p);
        InsertStableBehind(x, s, p);
      }
    }
  }

  lemma InsertStableFront(x: Source, s: seq<Source>, p: int)
    requires s != [] && Pri(x) < Pri(s[0]) && AtLeast(s, Pri(s[0]))
    ensures WithPriority(Insert(x, s), p) == WithPriority(s, p) + if Pri(x) == p then [x] else []
  {
    assert Insert(x, s) == [x] + s;
    WithPriorityCons(x, s, p);
    if Pri(x) == p {
      assert AtLeast(s, p + 1);
      WithPriorityNone(s, p);
      assert [x] + [] == [] + [x];
    } else {
      assert [] + WithPriority(s, p) == WithPriority(s, p) + [];
    }
  }

  lemma InsertStableBehind(x: Source, s: seq<Source>, p: int)
    requires s != [] && Pri(x) >= Pri(s[0])
    requires WithPriority(Insert(x, s[1..]), p) == WithPriority(s[1..], p) + if Pri(x) == p then [x] else []
    ensures WithPriority(Insert(x, s), p) == WithPriority(s, p) + if Pri(x) == p then [x] else []
  {
    var t := s[1..];
    var tail := if Pri(x) == p then [x] else [];
    var h := if Pri(s[0]) == p then [s[0]] else [];
    assert Insert(x, s) == [s[0]] + Insert(x, t);
    WithPriorityCons(s[0], Insert(x, t), p);
    assert s == [s[0]] + t;
    WithPriorityCons(s[0], t, p);
    assert h + (WithPriority(t, p) + tail) == (h + WithPriority(t, p)) + tail;
  }

  /** The sort is stable: sources of equal priority keep their relative order. */
  lemma {:induction false} SortStable(s: seq<Source>, p: int)
    ensures WithPriority(SortByPriority(s), p) == WithPriority(s, p)
  {
    if s != [] {
      SortStable(s[..|s| - 1], p);
      SortStableStep(s, p);
    }
  }

  lemma SortStableStep(s: seq<Source>, p: int)
    requires s != []
    requires WithPriority(SortByPriority(s[..|s| - 1]), p) == WithPriority(s[..|s| - 1], p)
    ensures WithPriority(SortByPriority(s), p) == WithPriority(s, p)
  {
    var init, x := s[..|s| - 1], s[|s| - 1];
    SortSorted(init);
    InsertStable(x, SortByPriority(init), p);
    WithPriorityLast(s, p);
  }

  lemma {:induction false} WithPriorityLast(s: seq<Source>, p: int)
    requires s != []
    ensures WithPriority(s, p) == WithPriority(s[..|s| - 1], p) + if Pri(s[|s| - 1]) == p then [s[|s| - 1]] else []
  {
    var x, init := s[|s| - 1], s[..|s| - 1];
    var h := if Pri(s[0]) == p then [s[0]] else [];
    var tail := if Pri(x) == p then [x] else [];
    assert WithPriority(s, p) == h + WithPriority(s[1..], p);
    if |s| == 1 {
      assert s[1..] == [] && init == [] && h == tail;
      assert h + [] == h && [] + tail == tail;
    } else {
      var t := s[1..];
      WithPriorityLast(t, p);
      assert t[..|t| - 1] == init[1..] && t[|t| - 1] == x;
      assert init[0] == s[0];
      var a := WithPriority(init[1..], p);
      assert WithPriority(t, p) == a + tail;
      assert WithPriority(init, p) == h + a;
      ConcatAssoc(h, a, tail);
    }
  }

  /** `sources.find(s => s.url && String(s.url).trim() !== "")`, `None` for
      `undefined`. */
  function FirstNonBlank(s: seq<Source>): Option<Source> {
    if s == [] then None
    else if NonBlank(s[0]) then Some(s[0])
    else FirstNonBlank(s[1..])
  }

  /** `pickBestSource(ch)` (server.js:189-193); `None` stands for `null`. */
  function PickBestSource(ch: Channel): Option<Source> {
    FirstNonBlank(SortByPriority(ch.sources))
  }

  /** One step of the plain one-pass search for the best source: a usable
      source replaces the best so far only if its priority is strictly
      smaller. */
  function Improve(best: Option<Source>, x: Source): Option<Source> {
    if !NonBlank(x) then best
    else if best.None? || Pri(x) < Pri(best.value) then Some(x)
    else best
  }

  /** The reference definition of the best source: a left-to-right scan that
      keeps the first usable source of least priority. */
  function Best(s: seq<Source>): Option<Source> {
    if s == [] then None else Improve(Best(s[..|s| - 1]), s[|s| - 1])
  }

  lemma {:induction false} FirstNonBlankIn(s: seq<Source>)
    ensures FirstNonBlank(s).Some? ==> 0 < |s| && FirstNonBlank(s).value in s[1..] + [s[0]]
  {
    if s != [] && !NonBlank(s[0]) {
      FirstNonBlankIn(s[1..]);
    }
  }

  lemma {:induction false} InsertFirstNonBlank(x: Source, s: seq<Source>)
    requires SortedByPriority(s)
    ensures FirstNonBlank(Insert(x, s)) == Improve(FirstNonBlank(s), x)
  {
    if s != [] {
      if Pri(x) < Pri(s[0]) {
        FirstNonBlankIn(s);
        assert ([x] + s)[1..] == s;
      } else {
        InsertFirstNonBlank(x, s[1..]);
        assert ([s[0]] + Insert(x, s[1..]))[1..] == Insert(x, s[1..]);
      }
    }
  }

  /** Sorting and then taking the first usable source picks the same source as
      the one-pass scan: a usable source of least priority, the earliest one
      among equals. */
  lemma {:induction false} PickBestIsBest(ch: Channel)
    ensures PickBestSource(ch) == Best(ch.sources)
  {
    BestOfSorted(ch.sources);
  }

  lemma {:induction false} BestOfSorted(s: seq<Source>)
    ensures FirstNonBlank(SortByPriority(s)) == Best(s)
  {
    if s != [] {
      var init, x := s[..|s| - 1], s[|s| - 1];
      BestOfSorted(init);
      SortSorted(init);
      InsertFirstNonBlank(x, SortByPriority(init));
    }
  }

  /** `v` sits at `i`, is usable, has the least priority of all usable sources,
      and every usable source before it has a strictly larger priority. */
  predicate BestAt(s: seq<Source>, i: int, v: Source) {
    && 0 <= i < |s| && s[i] == v && NonBlank(v)
    && (forall j :: 0 <= j < |s| && NonBlank(s[j]) ==> Pri(v) <= Pri(s[j]))
    && (forall j :: 0 <= j < i && NonBlank(s[j]) ==> Pri(v) < Pri(s[j]))
  }

  /** What the scan finds: nothing exactly when no source is usable, and
      otherwise the earliest usable source of least priority. */
  lemma BestSpec(s: seq<Source>)
    ensures Best(s).None? <==> forall j :: 0 <= j < |s| ==> !NonBlank(s[j])
    ensures Best(s).Some? ==> exists i :: BestAt(s, i, Best(s).value)
  {
    BestNone(s);
    if Best(s).Some? {
      BestFound(s);
    }
  }

  lemma {:induction false} BestNone(s: seq<Source>)
    ensures Best(s).None? <==> forall j :: 0 <= j < |s| ==> !NonBlank(s[j])
  {
    if s != [] {
      var init, x := s[..|s| - 1], s[|s| - 1];
      BestNone(init);
      assert Best(s) == Improve(Best(init), x);
      assert forall j :: 0 <= j < |init| ==> init[j] == s[j];
    }
  }

  lemma {:induction false} BestFound(s: seq<Source>)
    requires Best(s).Some?
    ensures exists i :: BestAt(s, i, Best(s).value)
  {
    var init, x := s[..|s| - 1], s[|s| - 1];
    var b := Best(init);
    assert Best(s) == Improve(b, x);
    assert s == init + [x];
    if NonBlank(x) && (b.None? || Pri(x) < Pri(b.value)) {
      if b.None? {
        BestNone(init);
        BestAtNew(init, x, Pri(x));
      } else {
        BestFound(init);
        var i :| BestAt(init, i, b.value);
        BestAtNew(init, x, Pri(b.value));
      }
    } else {
      BestFound(init);
      var i :| BestAt(init, i, b.value);
      BestAtKept(init, x, i, b.value);
    }
  }

  /** A usable source appended after usable sources of priority at least
      `m`, and smaller than `m`, is the best of the longer list. */
  lemma BestAtNew(init: seq<Source>, x: Source, m: int)
    requires NonBlank(x) && Pri(x) <= m
    requires forall j :: 0 <= j < |init| && NonBlank(init[j]) ==> Pri(x) < Pri(init[j])
    ensures BestAt(init + [x], |init|, x)
  {
    var s := init + [x];
    forall j | 0 <= j < |init| ensures s[j] == init[j] { }
  }

  lemma BestAtKept(init: seq<Source>, x: Source, i: int, v: Source)
    requires BestAt(init, i, v)
    requires !NonBlank(x) || Pri(v) <= Pri(x)
    ensures BestAt(init + [x], i, v)
  {
    var s := init + [x];
    forall j | 0 <= j < |init| ensures s[j] == init[j] { }
  }

  /** The usable sources, in order. */
  function NonBlankOnly(s: seq<Source>): seq<Source> {
    if s == [] then [] else (if NonBlank(s[0]) then [s[0]] else []) + NonBlankOnly(s[1..])
  }

  lemma {:induction false} NonBlankOnlyAtLeast(s: seq<Source>, b: int)
    requires AtLeast(s, b)
    ensures AtLeast(NonBlankOnly(s), b)
  {
    if s != [] {
      var h := if NonBlank(s[0]) then [s[0]] else [];
      assert AtLeast(s[1..], b);
      NonBlankOnlyAtLeast(s[1..], b);
      assert NonBlankOnly(s) == h + NonBlankOnly(s[1..]);
    }
  }

  lemma {:induction false} InsertNonBlankOnly(x: Source, s: seq<Source>)
    requires SortedByPriority(s)
    ensures NonBlankOnly(Insert(x, s)) == if NonBlank(x) then Insert(x, NonBlankOnly(s)) else NonBlankOnly(s)
  {
    if s == [] {
      assert Insert(x, s) == [x];
      assert NonBlankOnly([x]) == (if NonBlank(x) then [x] else []) + NonBlankOnly([x][1..]);
    } else if Pri(x) < Pri(s[0]) {
      InsertNonBlankOnlyFront(x, s);
    } else {
      SortedTail(s);
      InsertNonBlankOnly(x, s[1..]);
      InsertNonBlankOnlyBehind(x, s);
    }
  }

  lemma InsertNonBlankOnlyFront(x: Source, s: seq<Source>)
    requires SortedByPriority(s) && s != [] && Pri(x) < Pri(s[0])
    ensures NonBlankOnly(Insert(x, s)) == if NonBlank(x) then Insert(x, NonBlankOnly(s)) else NonBlankOnly(s)
  {
    var f := NonBlankOnly(s);
    SortedTail(s);
    assert Insert(x, s) == [x] + s;
    assert ([x] + s)[0] == x && ([x] + s)[1..] == s;
    assert NonBlankOnly(Insert(x, s)) == (if NonBlank(x) then [x] else []) + f;
    NonBlankOnlyAtLeast(s, Pri(s[0]));
    if f != [] {
      assert Pri(x) < Pri(f[0]);
      assert Insert(x, f) == [x] + f;
    }
  }

  lemma InsertNonBlankOnlyBehind(x: Source, s: seq<Source>)
    requires s != [] && Pri(x) >= Pri(s[0])
    requires NonBlankOnly(Insert(x, s[1..])) == if NonBlank(x) then Insert(x, NonBlankOnly(s[1..])) else NonBlankOnly(s[1..])
    ensures NonBlankOnly(Insert(x, s)) == if NonBlank(x) then Insert(x, NonBlankOnly(s)) else NonBlankOnly(s)
  {
    var t := s[1..];
    var f := NonBlankOnly(s);
    var h := if NonBlank(s[0]) then [s[0]] else [];
    assert f == h + NonBlankOnly(t);
    var r := Insert(x, t);
    assert Insert(x, s) == [s[0]] + r;
    assert ([s[0]] + r)[0] == s[0] && ([s[0]] + r)[1..] == r;
    assert NonBlankOnly(Insert(x, s)) == h + NonBlankOnly(r);
    if NonBlank(s[0]) {
      assert f[0] == s[0] && f[1..] == NonBlankOnly(t);
      if NonBlank(x) {
        assert Insert(x, f) == [s[0]] + Insert(x, NonBlankOnly(t));
      }
    } else {
      assert f == NonBlankOnly(t);
    }
  }

  lemma {:induction false} NonBlankOnlyLast(s: seq<Source>)
    requires s != []
    ensures NonBlankOnly(s) == NonBlankOnly(s[..|s| - 1]) + if NonBlank(s[|s| - 1]) then [s[|s| - 1]] else []
  {
    var x, init := s[|s| - 1], s[..|s| - 1];
    var h := if NonBlank(s[0]) then [s[0]] else [];
    var tail := if NonBlank(x) then [x] else [];
    assert NonBlankOnly(s) == h + NonBlankOnly(s[1..]);
    if |s| == 1 {
      assert s[1..] == [] && init == [] && h == tail;
      assert h + [] == h && [] + tail == tail;
    } else {
      var t := s[1..];
      NonBlankOnlyLast(t);
      assert t[..|t| - 1] == init[1..] && t[|t| - 1] == x;
      assert init[0] == s[0];
      var a := NonBlankOnly(init[1..]);
      assert NonBlankOnly(t) == a + tail;
      assert NonBlankOnly(init) == h + a;
      ConcatAssoc(h, a, tail);
    }
  }

  lemma ConcatAssoc<T>(a: seq<T>, b: seq<T>, c: seq<T>)
    ensures a + (b + c) == (a + b) + c
  {
  }

  /** Dropping the unusable sources after sorting is the same as sorting the
      usable ones. */
  lemma {:induction false} SortThenFilter(s: seq<Source>)
    ensures NonBlankOnly(SortByPriority(s)) == SortByPriority(NonBlankOnly(s))
  {
    if s != [] {
      SortThenFilter(s[..|s| - 1]);
      SortThenFilterStep(s);
    }
  }

  lemma SortThenFilterStep(s: seq<Source>)
    requires s != []
    requires NonBlankOnly(SortByPriority(s[..|s| - 1])) == SortByPriority(NonBlankOnly(s[..|s| - 1]))
    ensures NonBlankOnly(SortByPriority(s)) == SortByPriority(NonBlankOnly(s))
  {
    var init, x := s[..|s| - 1], s[|s| - 1];
    SortSorted(init);
    InsertNonBlankOnly(x, SortByPriority(init));
    NonBlankOnlyLast(s);
    if NonBlank(x) {
      SortSnoc(NonBlankOnly(init), x);
    } else {
      assert NonBlankOnly(init) + [] == NonBlankOnly(init);
    }
  }

  /** The first usable source of a list heads its usable sublist. */
  lemma {:induction false} FirstNonBlankIsHead(s: seq<Source>)
    ensures FirstNonBlank(s).None? <==> NonBlankOnly(s) == []
    ensures FirstNonBlank(s).Some? ==> NonBlankOnly(s)[0] == FirstNonBlank(s).value
    ensures FirstNonBlank(s).Some? ==> NonBlank(FirstNonBlank(s).value)
  {
    if s != [] {
      FirstNonBlankIsHead(s[1..]);
    }
  }
}
