/** The channel-name key of the build script (build-channels.js:122-125): the
    name lower-cased, stripped of every character that is neither a word
    character nor white space, with each run of white space made one space, and
    trimmed. Records whose names share a key are treated as the same channel. */
module Names {
  import opened Text

  /** The characters `/[^\w\s]/g` leaves in place. */
  predicate Kept(c: char) {
    IsWordChar(c) || IsSpace(c)
  }

  /** `s.replace(/[^\w\s]/g, '')` */
  function Strip(s: string): (r: string)
    ensures |r| <= |s|
    ensures forall i :: 0 <= i < |r| ==> Kept(r[i])
  {
    if s == [] then []
    else if Kept(s[0]) then [s[0]] + Strip(s[1..])
    else Strip(s[1..])
  }

  /** A single character is kept exactly when it is a word or white-space
      character. */
  lemma StripOne(c: char)
    ensures Strip([c]) == if Kept(c) then [c] else []
  {
    assert [c][1..] == [];
  }

  /** The strip works character by character: every kept character survives,
      in order. */
  lemma {:induction false} StripConcat(a: string, b: string)
    ensures Strip(a + b) == Strip(a) + Strip(b)
  {
    if a == [] {
      assert a + b == b;
    } else {
      assert (a + b)[0] == a[0] && (a + b)[1..] == a[1..] + b;
      StripConcat(a[1..], b);
      if Kept(a[0]) {
        assert [a[0]] + (Strip(a[1..]) + Strip(b)) == ([a[0]] + Strip(a[1..])) + Strip(b);
      }
    }
  }

  /** `s.replace(/\s+/g, ' ')`: every maximal run of white space becomes one
      space. */
  function Collapse(s: string): (r: string)
    decreases |s|
  {
    if s == [] then []
    else if !IsSpace(s[0]) then [s[0]] + Collapse(s[1..])
    else " " + Collapse(TrimStart(s[1..]))
  }

  /** The grouping key of a channel name. */
  function NormalizeName(s: string): (r: string)
  {
    Trim(Collapse(Strip(Lower(s))))
  }

  predicate LowerWord(c: char) {
    IsWordChar(c) && !IsUpper(c)
  }

  /** The shape of a key: lower-case word characters and single spaces, with no
      space at either end. */
  predicate Canonical(s: string) {
    && (forall i :: 0 <= i < |s| ==> LowerWord(s[i]) || s[i] == ' ')
    && (forall i :: 0 <= i < |s| - 1 ==> s[i] == ' ' ==> s[i + 1] != ' ')
    && IsTrimmed(s)
  }

  /** Every key has the canonical shape ... */
  lemma NormalizeNameCanonical(s: string)
    ensures Canonical(NormalizeName(s))
  {
    var low := Lower(s);
    LowerIdempotent(s);
    StripKeepsCase(low);
    var stripped := Strip(low);
    CollapseShape(stripped);
    var collapsed := Collapse(stripped);
    var a, b := TrimSlice(collapsed);
    var r := NormalizeName(s);
    assert r == collapsed[a..b];
    forall i | 0 <= i < |r|
      ensures LowerWord(r[i]) || r[i] == ' '
    {
      assert r[i] == collapsed[a + i];
    }
    forall i | 0 <= i < |r| - 1
      ensures r[i] == ' ' ==> r[i + 1] != ' '
    {
      assert r[i] == collapsed[a + i] && r[i + 1] == collapsed[a + i + 1];
    }
    TrimIdempotent(collapsed);
  }

  /** ... and a canonical string is its own key ... */
  lemma CanonicalIsFixed(s: string)
    requires Canonical(s)
    ensures NormalizeName(s) == s
  {
    assert NoUpper(s);
    LowerIdempotent(s);
    StripFixed(s);
    CollapseFixed(s);
    TrimOfTrimmed(s);
  }

  /** ... so normalising a name twice gives the same key as normalising it once. */
  lemma NormalizeNameIdempotent(s: string)
    ensures NormalizeName(NormalizeName(s)) == NormalizeName(s)
  {
    NormalizeNameCanonical(s);
    CanonicalIsFixed(NormalizeName(s));
  }

  lemma {:induction false} StripKeepsCase(s: string)
    requires NoUpper(s)
    ensures NoUpper(Strip(s))
  {
    if s != [] {
      StripKeepsCase(s[1..]);
    }
  }

  lemma {:induction false} StripFixed(s: string)
    requires forall i :: 0 <= i < |s| ==> Kept(s[i])
    ensures Strip(s) == s
  {
    if s != [] {
      StripFixed(s[1..]);
    }
  }

  /** After collapsing, white space is a lone `' '`; a string that starts with
      something else keeps its first character. */
  lemma {:induction false} CollapseShape(s: string)
    requires forall i :: 0 <= i < |s| ==> LowerWord(s[i]) || IsSpace(s[i])
    decreases |s|
    ensures forall i :: 0 <= i < |Collapse(s)| ==> LowerWord(Collapse(s)[i]) || Collapse(s)[i] == ' '
    ensures forall i :: 0 <= i < |Collapse(s)| - 1 ==> Collapse(s)[i] == ' ' ==> Collapse(s)[i + 1] != ' '
    ensures s != [] && !IsSpace(s[0]) ==> Collapse(s) != [] && Collapse(s)[0] == s[0]
  {
    if s != [] {
      if !IsSpace(s[0]) {
        CollapseShape(s[1..]);
        var rest := Collapse(s[1..]);
        assert Collapse(s) == [s[0]] + rest;
      } else {
        TrimStartCuts(s[1..]);
        var t := TrimStart(s[1..]);
        assert forall i :: 0 <= i < |t| ==> t[i] == s[1..][|s| - 1 - |t| + i];
        CollapseShape(t);
        var rest := Collapse(t);
        assert forall i :: 1 <= i < |rest| + 1 ==> (" " + rest)[i] == rest[i - 1];
      }
    }
  }

  lemma {:induction false} CollapseFixed(s: string)
    requires forall i :: 0 <= i < |s| ==> LowerWord(s[i]) || s[i] == ' '
    requires forall i :: 0 <= i < |s| - 1 ==> s[i] == ' ' ==> s[i + 1] != ' '
    ensures Collapse(s) == s
  {
    if s != [] {
      if s[0] == ' ' {
        assert TrimStart(s[1..]) == s[1..];
      }
      CollapseFixed(s[1..]);
    }
  }

  /** `trim` keeps a contiguous piece of its argument. */
  lemma TrimSlice(s: string) returns (a: nat, b: nat)
    ensures a <= b <= |s| && Trim(s) == s[a..b]
  {
    TrimStartCuts(s);
    var t := TrimStart(s);
    TrimEndCuts(t);
    a, b := |s| - |t|, |s| - |t| + |TrimEnd(t)|;
  }
}
