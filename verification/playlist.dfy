/** The M3U playlist parser of the build script (`parseM3U`).

    The text is split on line feeds and each line is trimmed. An `#EXTINF:` line
    starts a pending record (name, logo and group taken from the line); the next
    non-blank line that is not a comment completes it with its URL and the record
    is appended. `Run` is the parser as a fold over the lines; `ParseM3U` is the
    loop of the source, proved equal to it. */
module Playlist {
  import opened Options
  import opened Text

  /** One playlist entry. `sourceType` is the record's `type` field. */
  datatype Record = Record(
    id: int,
    name: string,
    logo: string,
    category: string,
    source: string,
    sourceType: string,
    url: string,
    validated: bool)

  const ExtInf: string := "#EXTINF:"
  const LogoKey: string := "tvg-logo=\""
  const GroupKey: string := "group-title=\""
  const UnknownName: string := "Unknown Channel"
  const DefaultCategory: string := "General"

  predicate NoLineTerminator(s: string) {
    forall i :: 0 <= i < |s| ==> !IsLineTerminator(s[i])
  }

  /** Where `/,(.+)$/` can match: a comma followed by at least one character,
      and no line terminator up to the end of the line. */
  predicate NameAt(line: string, i: int) {
    0 <= i && i + 1 < |line| && line[i] == ',' && NoLineTerminator(line[i + 1..])
  }

  /** The capture of `line.match(/,(.+)$/)`, searching from position `i`. */
  function NameFrom(line: string, i: nat): (r: Option<string>)
    decreases |line| - i
    ensures r.Some? ==> |r.value| >= 1
  {
    if i >= |line| then None
    else if NameAt(line, i) then Some(line[i + 1..])
    else NameFrom(line, i + 1)
  }

  /** `NameFrom` finds the leftmost place where the pattern matches, and finds
      nothing only when the pattern matches nowhere. */
  lemma {:induction false} NameFromLeftmost(line: string, i: nat)
    decreases |line| - i
    ensures var r := NameFrom(line, i);
            && (r.Some? ==> exists j :: i <= j && NameAt(line, j) && r.value == line[j + 1..]
                                        && forall m :: i <= m < j ==> !NameAt(line, m))
            && (r.None? <==> forall m :: i <= m < |line| ==> !NameAt(line, m))
  {
    if i < |line| && !NameAt(line, i) {
      NameFromLeftmost(line, i + 1);
    }
  }

  /** The first double quote at or after `i`. */
  function QuoteFrom(line: string, i: nat): (r: Option<nat>)
    decreases |line| - i
    ensures r.Some? ==> i <= r.value < |line| && line[r.value] == '"'
  {
    if i >= |line| then None
    else if line[i] == '"' then Some(i)
    else QuoteFrom(line, i + 1)
  }

  lemma {:induction false} QuoteFromFirst(line: string, i: nat)
    decreases |line| - i
    ensures var r := QuoteFrom(line, i);
            && (r.Some? ==> forall m :: i <= m < r.value ==> line[m] != '"')
            && (r.None? ==> forall m :: i <= m < |line| ==> line[m] != '"')
  {
    if i < |line| && line[i] != '"' {
      QuoteFromFirst(line, i + 1);
    }
  }

  /** Where `/key([^"]+)"/` matches: `key` at `p`, then at least one character
      before the next double quote. */
  predicate AttrAt(line: string, key: string, p: int) {
    0 <= p <= |line| - |key| && line[p..p + |key|] == key
    && var q := QuoteFrom(line, p + |key|); q.Some? && q.value > p + |key|
  }

  /** The capture of `line.match(/key([^"]+)"/)`, searching from `p`. */
  function AttrFrom(line: string, key: string, p: nat): (r: Option<string>)
    decreases |line| - p
  {
    if p + |key| > |line| then None
    else if AttrAt(line, key, p) then Some(line[p + |key|..QuoteFrom(line, p + |key|).value])
    else AttrFrom(line, key, p + 1)
  }

  /** `AttrFrom` captures a non-empty, quote-free value at the leftmost match,
      and finds nothing only when the pattern matches nowhere. */
  lemma AttrFromLeftmost(line: string, key: string, p: nat)
    ensures var r := AttrFrom(line, key, p);
            && (r.Some? ==> |r.value| >= 1 && '"' !in r.value)
            && (r.Some? ==> exists j :: p <= j && AttrAt(line, key, j)
                                        && forall m :: p <= m < j ==> !AttrAt(line, key, m))
            && (r.None? <==> forall m :: p <= m <= |line| - |key| ==> !AttrAt(line, key, m))
  {
    AttrFromValue(line, key, p);
    AttrFromNone(line, key, p);
    if AttrFrom(line, key, p).Some? {
      var j := AttrFromFirstMatch(line, key, p);
    }
  }

  lemma {:induction false} AttrFromValue(line: string, key: string, p: nat)
    decreases |line| - p
    ensures var r := AttrFrom(line, key, p);
            r.Some? ==> |r.value| >= 1 && '"' !in r.value
  {
    if p + |key| <= |line| {
      if AttrAt(line, key, p) {
        var start := p + |key|;
        var q := QuoteFrom(line, start).value;
        QuoteFromFirst(line, start);
        var v := line[start..q];
        assert AttrFrom(line, key, p) == Some(v);
        forall m | 0 <= m < |v|
          ensures v[m] != '"'
        {
          assert v[m] == line[start + m];
        }
      } else {
        AttrFromValue(line, key, p + 1);
      }
    }
  }

  lemma {:induction false} AttrFromFirstMatch(line: string, key: string, p: nat) returns (j: nat)
    decreases |line| - p
    requires AttrFrom(line, key, p).Some?
    ensures p <= j && AttrAt(line, key, j)
    ensures forall m :: p <= m < j ==> !AttrAt(line, key, m)
  {
    if AttrAt(line, key, p) {
      j := p;
    } else {
      assert AttrFrom(line, key, p) == AttrFrom(line, key, p + 1);
      j := AttrFromFirstMatch(line, key, p + 1);
      forall m | p <= m < j
        ensures !AttrAt(line, key, m)
      {
        if m > p {
          assert p + 1 <= m;
        }
      }
    }
  }

  lemma {:induction false} AttrFromNone(line: string, key: string, p: nat)
    decreases |line| - p
    ensures AttrFrom(line, key, p).None? <==> forall m :: p <= m <= |line| - |key| ==> !AttrAt(line, key, m)
  {
    if p + |key| <= |line| && !AttrAt(line, key, p) {
      assert AttrFrom(line, key, p) == AttrFrom(line, key, p + 1);
      AttrFromNone(line, key, p + 1);
    }
  }

  /** The record an `#EXTINF:` line starts (build-channels.js:25-38). */
  function Entry(line: string, id: int, sourceName: string, sourceType: string): (r: Record)
    ensures r.id == id && r.source == sourceName && r.sourceType == sourceType
    ensures r.url == "" && !r.validated
    ensures |r.name| >= 1
  {
    Record(
      id,
      NameFrom(line, 0).GetOr(UnknownName),
      AttrFrom(line, LogoKey, 0).GetOr(""),
      AttrFrom(line, GroupKey, 0).GetOr(DefaultCategory),
      sourceName,
      sourceType,
      "",
      false)
  }

  /** The defaults: `'Unknown Channel'` when no comma is followed by text up to
      the end of the line, `''` without a logo and `'General'` without a group. */
  lemma EntryDefaults(line: string, id: int, sourceName: string, sourceType: string)
    ensures var r := Entry(line, id, sourceName, sourceType);
            && (r.name == UnknownName <== forall m :: 0 <= m < |line| ==> !NameAt(line, m))
            && (r.logo == "" <== forall m :: 0 <= m <= |line| - |LogoKey| ==> !AttrAt(line, LogoKey, m))
            && (r.category == DefaultCategory
                  <== forall m :: 0 <= m <= |line| - |GroupKey| ==> !AttrAt(line, GroupKey, m))
  {
    NameFromLeftmost(line, 0);
    AttrFromLeftmost(line, LogoKey, 0);
    AttrFromLeftmost(line, GroupKey, 0);
  }

  predicate IsExtInf(rawLine: string) {
    StartsWith(Trim(rawLine), ExtInf)
  }

  /** A line that completes a pending record: non-blank and not a comment. */
  predicate IsUrlLine(rawLine: string) {
    var line := Trim(rawLine);
    line != "" && !StartsWith(line, "#")
  }

  /** The parser's variables `current` (None standing for `{}`) and `result`. */
  datatype ParseState = ParseState(pending: Option<Record>, result: seq<Record>)

  /** One iteration of the loop (build-channels.js:22-43). */
  function Step(st: ParseState, rawLine: string, sourceName: string, sourceType: string): ParseState {
    var line := Trim(rawLine);
    if StartsWith(line, ExtInf) then
      ParseState(Some(Entry(line, |st.result| + 1, sourceName, sourceType)), st.result)
    else if line != "" && !StartsWith(line, "#") && st.pending.Some? && st.pending.value.name != "" then
      ParseState(None, st.result + [st.pending.value.(url := line)])
    else
      st
  }

  /** The state after the given lines. */
  function Run(lines: seq<string>, sourceName: string, sourceType: string): ParseState {
    if lines == [] then ParseState(None, [])
    else Step(Run(lines[..|lines| - 1], sourceName, sourceType), lines[|lines| - 1], sourceName, sourceType)
  }

  /** The records `parseM3U(content, sourceName, sourceType)` returns. */
  function Parse(content: string, sourceName: string, sourceType: string): seq<Record> {
    Run(Split(content), sourceName, sourceType).result
  }

  lemma RunStep(lines: seq<string>, i: int, sourceName: string, sourceType: string)
    requires 0 <= i < |lines|
    ensures Run(lines[..i + 1], sourceName, sourceType) == Step(Run(lines[..i], sourceName, sourceType), lines[i], sourceName, sourceType)
  {
    assert lines[..i + 1][..i] == lines[..i];
  }

  /** `parseM3U` (build-channels.js:16-47). */
  method ParseM3U(content: string, sourceName: string, sourceType: string) returns (result: seq<Record>)
    ensures result == Parse(content, sourceName, sourceType)
    ensures forall k :: 0 <= k < |result| ==> WellFormedAt(result[k], k, sourceName, sourceType)
  {
    var lines := Split(content);
    result := [];
    var current: Option<Record> := None;
    for i := 0 to |lines|
      invariant ParseState(current, result) == Run(lines[..i], sourceName, sourceType)
    {
      RunStep(lines, i, sourceName, sourceType);
      var line := Trim(lines[i]);
      if StartsWith(line, ExtInf) {
        current := Some(Entry(line, |result| + 1, sourceName, sourceType));
      } else if line != "" && !StartsWith(line, "#") && current.Some? && current.value.name != "" {
        result := result + [current.value.(url := line)];
        current := None;
      }
    }
    assert lines[..|lines|] == lines;
    RunWellFormed(lines, sourceName, sourceType);
  }

  /** What every emitted record looks like: its position fixes its id, it carries
      the source's name and type, it is not validated, its name is non-empty and
      its URL is a trimmed non-empty line that is not a comment. */
  predicate WellFormedAt(r: Record, k: int, sourceName: string, sourceType: string) {
    && r.id == k + 1
    && r.source == sourceName && r.sourceType == sourceType && !r.validated
    && |r.name| >= 1
    && r.url != "" && IsTrimmed(r.url) && !StartsWith(r.url, "#")
  }

  /** The pending record waits for its URL and already carries the next id. */
  predicate PendingAt(r: Record, k: int, sourceName: string, sourceType: string) {
    && r.id == k + 1
    && r.source == sourceName && r.sourceType == sourceType && !r.validated
    && |r.name| >= 1 && r.url == ""
  }

  function CountExtInf(lines: seq<string>): nat {
    if lines == [] then 0
    else CountExtInf(lines[..|lines| - 1]) + if IsExtInf(lines[|lines| - 1]) then 1 else 0
  }

  /** Invariants of the fold: records are well formed and numbered 1, 2, ...; the
      pending record (if any) already carries the next id; and there are never
      more records, counting the pending one, than `#EXTINF:` lines. */
  lemma {:induction false} RunWellFormed(lines: seq<string>, sourceName: string, sourceType: string)
    ensures var st := Run(lines, sourceName, sourceType);
            && (forall k :: 0 <= k < |st.result| ==> WellFormedAt(st.result[k], k, sourceName, sourceType))
            && (st.pending.Some? ==> PendingAt(st.pending.value, |st.result|, sourceName, sourceType))
            && |st.result| + (if st.pending.Some? then 1 else 0) <= CountExtInf(lines)
  {
    if lines != [] {
      var prefix := lines[..|lines| - 1];
      var raw := lines[|lines| - 1];
      RunWellFormed(prefix, sourceName, sourceType);
      var st := Run(prefix, sourceName, sourceType);
      var line := Trim(raw);
      assert Run(lines, sourceName, sourceType) == Step(st, raw, sourceName, sourceType);
      assert CountExtInf(lines) == CountExtInf(prefix) + if IsExtInf(raw) then 1 else 0;
      if StartsWith(line, ExtInf) {
      } else if line != "" && !StartsWith(line, "#") && st.pending.Some? && st.pending.value.name != "" {
        TrimIdempotent(raw);
        var r := st.pending.value.(url := line);
        assert WellFormedAt(r, |st.result|, sourceName, sourceType);
        var res := st.result + [r];
        assert forall k :: 0 <= k < |st.result| ==> res[k] == st.result[k];
      }
    }
  }

  /** Lines that leave the parser state alone: blank lines and comments other
      than `#EXTINF:`. */
  predicate AllSilent(lines: seq<string>) {
    lines == [] || (AllSilent(lines[..|lines| - 1]) && !IsExtInf(lines[|lines| - 1]) && !IsUrlLine(lines[|lines| - 1]))
  }

  /** Record `r` was produced by the `#EXTINF:` line `j` and the URL line `k`:
      `k` is the first URL line after `j`, and no other `#EXTINF:` line lies
      between them. */
  predicate EmittedFrom(lines: seq<string>, j: int, k: int, r: Record, sourceName: string, sourceType: string) {
    && 0 <= j < k < |lines|
    && IsExtInf(lines[j]) && IsUrlLine(lines[k])
    && r == Entry(Trim(lines[j]), r.id, sourceName, sourceType).(url := Trim(lines[k]))
    && AllSilent(lines[j + 1..k])
  }

  /** The pending record was started by the `#EXTINF:` line `j`, and no later line
      has either completed it or replaced it. */
  predicate PendingFrom(lines: seq<string>, j: int, r: Record, sourceName: string, sourceType: string) {
    && 0 <= j < |lines|
    && IsExtInf(lines[j])
    && r == Entry(Trim(lines[j]), r.id, sourceName, sourceType)
    && AllSilent(lines[j + 1..])
  }

  /** Some `#EXTINF:` line and URL line of `lines` produced `r`. */
  ghost predicate Emitted(lines: seq<string>, r: Record, sourceName: string, sourceType: string) {
    exists j, k :: EmittedFrom(lines, j, k, r, sourceName, sourceType)
  }

  /** Some `#EXTINF:` line of `lines`, still unanswered, started `r`. */
  ghost predicate Pending(lines: seq<string>, r: Record, sourceName: string, sourceType: string) {
    exists j :: PendingFrom(lines, j, r, sourceName, sourceType)
  }

  /** Where every record and the pending one came from. */
  ghost predicate Traced(lines: seq<string>, st: ParseState, sourceName: string, sourceType: string) {
    && (forall i :: 0 <= i < |st.result| ==> Emitted(lines, st.result[i], sourceName, sourceType))
    && (st.pending.Some? ==> Pending(lines, st.pending.value, sourceName, sourceType))
  }

  /** Every record comes from an `#EXTINF:` line followed by its URL line; an entry
      whose `#EXTINF:` line is followed by another `#EXTINF:` line first is never
      emitted. */
  lemma {:induction false} RunProvenance(lines: seq<string>, sourceName: string, sourceType: string)
    ensures Traced(lines, Run(lines, sourceName, sourceType), sourceName, sourceType)
  {
    if lines != [] {
      var prefix := lines[..|lines| - 1];
      RunProvenance(prefix, sourceName, sourceType);
      RunWellFormed(prefix, sourceName, sourceType);
      assert prefix + [lines[|lines| - 1]] == lines;
      ProvenanceStep(prefix, lines[|lines| - 1], Run(prefix, sourceName, sourceType), sourceName, sourceType);
    }
  }

  lemma ProvenanceStep(prefix: seq<string>, raw: string, st: ParseState, sourceName: string, sourceType: string)
    requires Traced(prefix, st, sourceName, sourceType)
    requires st.pending.Some? ==> |st.pending.value.name| >= 1
    ensures Traced(prefix + [raw], Step(st, raw, sourceName, sourceType), sourceName, sourceType)
  {
    var line := Trim(raw);
    ResultsStayTraced(prefix, raw, st.result, sourceName, sourceType);
    if StartsWith(line, ExtInf) {
      assert PendingFrom(prefix + [raw], |prefix|, Entry(line, |st.result| + 1, sourceName, sourceType), sourceName, sourceType);
    } else if line != "" && !StartsWith(line, "#") && st.pending.Some? {
      PendingCompleted(prefix, raw, st.result, st.pending.value, sourceName, sourceType);
    } else if st.pending.Some? {
      PendingStays(prefix, raw, st.pending.value, sourceName, sourceType);
    }
  }

  lemma ResultsStayTraced(prefix: seq<string>, raw: string, result: seq<Record>, sourceName: string, sourceType: string)
    requires forall i :: 0 <= i < |result| ==> Emitted(prefix, result[i], sourceName, sourceType)
    ensures forall i :: 0 <= i < |result| ==> Emitted(prefix + [raw], result[i], sourceName, sourceType)
  {
    forall i | 0 <= i < |result| ensures Emitted(prefix + [raw], result[i], sourceName, sourceType) {
      EmittedStays(prefix, raw, result[i], sourceName, sourceType);
    }
  }

  lemma EmittedStays(prefix: seq<string>, raw: string, r: Record, sourceName: string, sourceType: string)
    requires Emitted(prefix, r, sourceName, sourceType)
    ensures Emitted(prefix + [raw], r, sourceName, sourceType)
  {
    var lines := prefix + [raw];
    var j, k :| EmittedFrom(prefix, j, k, r, sourceName, sourceType);
    assert lines[j] == prefix[j] && lines[k] == prefix[k];
    assert lines[j + 1..k] == prefix[j + 1..k];
    assert EmittedFrom(lines, j, k, r, sourceName, sourceType);
  }

  lemma PendingStays(prefix: seq<string>, raw: string, r: Record, sourceName: string, sourceType: string)
    requires Pending(prefix, r, sourceName, sourceType)
    requires !IsExtInf(raw) && !IsUrlLine(raw)
    ensures Pending(prefix + [raw], r, sourceName, sourceType)
  {
    var lines := prefix + [raw];
    var j :| PendingFrom(prefix, j, r, sourceName, sourceType);
    assert lines[j] == prefix[j];
    assert lines[j + 1..][..|lines[j + 1..]| - 1] == prefix[j + 1..];
    assert PendingFrom(lines, j, r, sourceName, sourceType);
  }

  lemma PendingCompleted(prefix: seq<string>, raw: string, result: seq<Record>, r: Record, sourceName: string, sourceType: string)
    requires forall i :: 0 <= i < |result| ==> Emitted(prefix + [raw], result[i], sourceName, sourceType)
    requires Pending(prefix, r, sourceName, sourceType)
    requires IsUrlLine(raw)
    ensures forall i :: 0 <= i < |result| + 1 ==>
              Emitted(prefix + [raw], (result + [r.(url := Trim(raw))])[i], sourceName, sourceType)
  {
    var lines := prefix + [raw];
    var j :| PendingFrom(prefix, j, r, sourceName, sourceType);
    assert lines[j] == prefix[j];
    assert lines[j + 1..|prefix|] == prefix[j + 1..];
    assert EmittedFrom(lines, j, |prefix|, r.(url := Trim(raw)), sourceName, sourceType);
    var res := result + [r.(url := Trim(raw))];
    forall i | 0 <= i < |res| ensures Emitted(lines, res[i], sourceName, sourceType) {
      if i < |result| {
        assert res[i] == result[i];
      }
    }
  }

  /** At most one record per `#EXTINF:` line. */
  lemma ParseCountBound(content: string, sourceName: string, sourceType: string)
    ensures |Parse(content, sourceName, sourceType)| <= CountExtInf(Split(content))
  {
    RunWellFormed(Split(content), sourceName, sourceType);
  }

  /** A URL line with nothing pending is ignored. */
  lemma OrphanUrlIgnored(lines: seq<string>, url: string, sourceName: string, sourceType: string)
    requires Run(lines, sourceName, sourceType).pending.None?
    requires !IsExtInf(url)
    ensures Run(lines + [url], sourceName, sourceType) == Run(lines, sourceName, sourceType)
  {
    assert (lines + [url])[..|lines|] == lines;
  }

  /** Blank lines and comments leave the parser state as it was. */
  lemma {:induction false} SilentKeeps(lines: seq<string>, silent: seq<string>, sourceName: string, sourceType: string)
    requires AllSilent(silent)
    ensures Run(lines + silent, sourceName, sourceType) == Run(lines, sourceName, sourceType)
    decreases |silent|
  {
    if silent == [] {
      assert lines + silent == lines;
    } else {
      var init, x := silent[..|silent| - 1], silent[|silent| - 1];
      var all := lines + silent;
      assert all[..|all| - 1] == lines + init && all[|all| - 1] == x;
      SilentKeeps(lines, init, sourceName, sourceType);
    }
  }

  /** An `#EXTINF:` line followed, after any blank or comment lines, by a URL
      line emits its record with that URL and the next id, and nothing is left
      pending. */
  lemma ExtInfThenUrlEmits(lines: seq<string>, ext: string, silent: seq<string>, url: string,
                           sourceName: string, sourceType: string)
    requires IsExtInf(ext) && AllSilent(silent) && IsUrlLine(url)
    ensures var before := Run(lines, sourceName, sourceType);
            var after := Run(lines + [ext] + silent + [url], sourceName, sourceType);
            after == ParseState(None, before.result +
                                      [Entry(Trim(ext), |before.result| + 1, sourceName, sourceType).(url := Trim(url))])
  {
    var before := Run(lines, sourceName, sourceType);
    var r := Entry(Trim(ext), |before.result| + 1, sourceName, sourceType);
    var a := lines + [ext];
    assert a[..|a| - 1] == lines && a[|a| - 1] == ext;
    assert Run(a, sourceName, sourceType) == ParseState(Some(r), before.result);
    SilentKeeps(a, silent, sourceName, sourceType);
    var b := a + silent;
    var whole := b + [url];
    assert whole[..|whole| - 1] == b && whole[|whole| - 1] == url;
    var line := Trim(url);
    assert line[0] != ExtInf[0];
    assert !StartsWith(line, ExtInf);
  }

  /** An `#EXTINF:` line directly followed by another one is dropped: the second
      replaces it as the pending record, and nothing is emitted. */
  lemma ExtInfReplacesPending(lines: seq<string>, first: string, second: string, sourceName: string, sourceType: string)
    requires IsExtInf(first) && IsExtInf(second)
    ensures var before := Run(lines, sourceName, sourceType);
            var after := Run(lines + [first, second], sourceName, sourceType);
            after == ParseState(Some(Entry(Trim(second), |before.result| + 1, sourceName, sourceType)), before.result)
  {
    var both := lines + [first, second];
    assert both[..|both| - 1] == lines + [first];
    assert (lines + [first])[..|lines|] == lines;
  }
}
