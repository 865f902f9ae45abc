/** The default order of `Array.prototype.sort` on strings (character by
    character, a proper prefix first), `Array.from(new Set(xs))`, and the sort
    that the category list applies to them. */
module StringOrder {

  /** `a < b` on JavaScript strings. */
  predicate Less(a: string, b: string) {
    if a == [] then b != []
    else if b == [] then false
    else if a[0] != b[0] then a[0] < b[0]
    else Less(a[1..], b[1..])
  }

  lemma {:induction false} LessIrreflexive(a: string)
    ensures !Less(a, a)
  {
    if a != [] {
      LessIrreflexive(a[1..]);
    }
  }

  lemma {:induction false} LessTransitive(a: string, b: string, c: string)
    requires Less(a, b) && Less(b, c)
    ensures Less(a, c)
  {
    if a != [] && a[0] == b[0] && b[0] == c[0] {
      LessTransitive(a[1..], b[1..], c[1..]);
    }
  }

  lemma {:induction false} LessTotal(a: string, b: string)
    requires a != b
    ensures Less(a, b) || Less(b, a)
  {
    if a != [] && b != [] && a[0] == b[0] {
      assert a == [a[0]] + a[1..] && b == [b[0]] + b[1..];
      LessTotal(a[1..], b[1..]);
    }
  }

  lemma LessAsymmetric(a: string, b: string)
    requires Less(a, b)
    ensures !Less(b, a)
  {
    if Less(b, a) {
      LessTransitive(a, b, a);
      LessIrreflexive(a);
    }
  }

  predicate StrictlySorted(s: seq<string>) {
    forall i, j :: 0 <= i < j < |s| ==> Less(s[i], s[j])
  }

  function InsertString(x: string, s: seq<string>): seq<string> {
    if s == [] then [x]
    else if Less(x, s[0]) then [x] + s
    else [s[0]] + InsertString(x, s[1..])
  }

  /** The sorted copy of a list of strings. */
  function SortStrings(s: seq<string>): seq<string> {
    if s == [] then [] else InsertString(s[|s| - 1], SortStrings(s[..|s| - 1]))
  }

  /** Every string of `s` comes after `b`. */
  predicate Above(s: seq<string>, b: string) {
    forall i :: 0 <= i < |s| ==> Less(b, s[i])
  }

  lemma ConsSorted(a: string, s: seq<string>)
    requires Above(s, a) && StrictlySorted(s)
    ensures StrictlySorted([a] + s)
  {
    var t := [a] + s;
    forall i, j | 0 <= i < j < |t|
      ensures Less(t[i], t[j])
    {
      assert t[j] == s[j - 1];
      if i > 0 {
        assert t[i] == s[i - 1];
      }
    }
  }

  lemma SortedTail(s: seq<string>)
    requires StrictlySorted(s) && s != []
    ensures StrictlySorted(s[1..]) && Above(s[1..], s[0])
  {
  }

  lemma {:induction false} InsertAbove(x: string, s: seq<string>, b: string)
    requires Above(s, b) && Less(b, x)
    ensures Above(InsertString(x, s), b)
  {
    if s != [] && !Less(x, s[0]) {
      assert Above(s[1..], b);
      InsertAbove(x, s[1..], b);
      assert InsertString(x, s) == [s[0]] + InsertString(x, s[1..]);
    }
  }

  lemma {:induction false} InsertStringSorted(x: string, s: seq<string>)
    requires StrictlySorted(s) && x !in s
    ensures StrictlySorted(InsertString(x, s))
  {
    if s != [] {
      if Less(x, s[0]) {
        forall j | 0 <= j < |s|
          ensures Less(x, s[j])
        {
          if j > 0 {
            LessTransitive(x, s[0], s[j]);
          }
        }
        ConsSorted(x, s);
      } else {
        LessTotal(x, s[0]);
        SortedTail(s);
        assert x !in s[1..];
        InsertStringSorted(x, s[1..]);
        InsertAbove(x, s[1..], s[0]);
        assert InsertString(x, s) == [s[0]] + InsertString(x, s[1..]);
        ConsSorted(s[0], InsertString(x, s[1..]));
      }
    }
  }

  lemma {:induction false} InsertStringPermutes(x: string, s: seq<string>)
    ensures multiset(InsertString(x, s)) == multiset(s) + multiset{x}
  {
    if s != [] {
      if Less(x, s[0]) {
        assert InsertString(x, s) == [x] + s;
      } else {
        var t := s[1..];
        InsertStringPermutes(x, t);
        assert InsertString(x, s) == [s[0]] + InsertString(x, t);
        assert s == [s[0]] + t;
        assert multiset(InsertString(x, s)) == multiset{s[0]} + multiset(InsertString(x, t));
      }
    }
  }

  /** Inserting a new string into a strictly increasing list keeps it strictly
      increasing and adds exactly that string. */
  lemma InsertStringSpec(x: string, s: seq<string>)
    requires StrictlySorted(s) && x !in s
    ensures StrictlySorted(InsertString(x, s))
    ensures multiset(InsertString(x, s)) == multiset(s) + multiset{x}
  {
    InsertStringSorted(x, s);
    InsertStringPermutes(x, s);
  }

  lemma {:induction false} SortStringsPermutes(s: seq<string>)
    ensures multiset(SortStrings(s)) == multiset(s)
  {
    if s != [] {
      var init, x := s[..|s| - 1], s[|s| - 1];
      SortStringsPermutes(init);
      InsertStringPermutes(x, SortStrings(init));
      assert s == init + [x];
      assert multiset(s) == multiset(init) + multiset([x]);
      assert multiset([x]) == multiset{x};
    }
  }

  lemma {:induction false} SortStringsSorted(s: seq<string>)
    requires forall i, j :: 0 <= i < j < |s| ==> s[i] != s[j]
    ensures StrictlySorted(SortStrings(s))
  {
    if s != [] {
      var init, x := s[..|s| - 1], s[|s| - 1];
      assert forall i, j :: 0 <= i < j < |init| ==> init[i] != init[j];
      SortStringsSorted(init);
      SortStringsPermutes(init);
      assert x !in init;
      assert x !in multiset(SortStrings(init));
      InsertStringSorted(x, SortStrings(init));
    }
  }

  /** Sorting distinct strings puts them in strictly increasing order and keeps
      exactly the same strings. */
  lemma SortStringsSpec(s: seq<string>)
    requires forall i, j :: 0 <= i < j < |s| ==> s[i] != s[j]
    ensures StrictlySorted(SortStrings(s))
    ensures multiset(SortStrings(s)) == multiset(s)
  {
    SortStringsSorted(s);
    SortStringsPermutes(s);
  }

  /** Two strictly increasing lists of the same strings are the same list, so the
      sorted result does not depend on the order the strings were collected in. */
  lemma {:induction false} StrictlySortedUnique(a: seq<string>, b: seq<string>)
    requires StrictlySorted(a) && StrictlySorted(b)
    requires forall x :: x in a <==> x in b
    ensures a == b
  {
    SameElementsEmpty(a, b);
    if a != [] {
      assert a[0] in b && b[0] in a;
      if a[0] != b[0] {
        var i :| 0 <= i < |a| && a[i] == b[0];
        var j :| 0 <= j < |b| && b[j] == a[0];
        assert Less(a[0], b[0]);
        LessAsymmetric(b[0], a[0]);
      }
      forall x
        ensures x in a[1..] <==> x in b[1..]
      {
        if x in a[1..] {
          var i :| 1 <= i < |a| && a[i] == x;
          LessIrreflexive(a[0]);
          assert x in b;
        }
        if x in b[1..] {
          var i :| 1 <= i < |b| && b[i] == x;
          LessIrreflexive(b[0]);
          assert x in a;
        }
      }
      StrictlySortedUnique(a[1..], b[1..]);
      assert a == [a[0]] + a[1..] && b == [b[0]] + b[1..];
    }
  }

  lemma SameElementsEmpty(a: seq<string>, b: seq<string>)
    requires forall x :: x in a <==> x in b
    ensures a == [] <==> b == []
  {
    if a != [] {
      assert a[0] in b;
    }
    if b != [] {
      assert b[0] in a;
    }
  }

  /** `Array.from(new Set(s))`: each string once, in order of first appearance. */
  function Dedup(s: seq<string>): seq<string> {
    if s == [] then []
    else
      var d := Dedup(s[..|s| - 1]);
      if s[|s| - 1] in d then d else d + [s[|s| - 1]]
  }

  lemma {:induction false} DedupSpec(s: seq<string>)
    ensures forall i, j :: 0 <= i < j < |Dedup(s)| ==> Dedup(s)[i] != Dedup(s)[j]
    ensures forall x :: x in Dedup(s) <==> x in s
  {
    if s != [] {
      var init := s[..|s| - 1];
      DedupSpec(init);
      assert s == init + [s[|s| - 1]];
    }
  }
}
