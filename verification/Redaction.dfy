/** Redacting the output of a recorded session across its event boundaries (src/session.rs). Text is
    counted in characters; the original counts bytes but moves from character to character. */
module Redaction {
  import opened Model

  datatype Replacement = Replacement(pattern: string, text: string)

  /** A line of a recording: an output event, of which only the data is touched, or anything else. */
  datatype Line = OutputLine(rest: string, data: string) | OtherLine(content: string)

  datatype Match = Match(start: nat, end: nat, text: string)

  // ---------------------------------------------------------------------------------------------
  // Leftmost-longest replacement of one string
  // ---------------------------------------------------------------------------------------------

  predicate Fits(r: Replacement, s: string) {
    r.pattern != "" && r.pattern <= s
  }

  /** The longest pattern at the front; of equal ones the last. */
  function Longest(rs: seq<Replacement>, s: string): (best: Option<Replacement>)
    ensures best.Some? ==> Fits(best.value, s)
  {
    if rs == [] then None
    else
      var last, best := rs[|rs| - 1], Longest(rs[..|rs| - 1], s);
      if Fits(last, s) && (best.None? || |best.value.pattern| <= |last.pattern|) then Some(last) else best
  }

  lemma {:induction false} LongestIsLongest(rs: seq<Replacement>, s: string)
    ensures Longest(rs, s).None? <==> forall r | r in rs :: !Fits(r, s)
    ensures Longest(rs, s).Some? ==> Longest(rs, s).value in rs
    ensures forall r | r in rs && Fits(r, s) :: |r.pattern| <= |Longest(rs, s).value.pattern|
    decreases |rs|
  {
    if rs != [] {
      LongestIsLongest(rs[..|rs| - 1], s);
      assert forall r | r in rs :: r == rs[|rs| - 1] || r in rs[..|rs| - 1];
    }
  }

  function Redact(rs: seq<Replacement>, s: string): string {
    if s == "" then ""
    else match Longest(rs, s)
    case Some(r) => r.text + Redact(rs, s[|r.pattern|..])
    case None => [s[0]] + Redact(rs, s[1..])
  }

  // ---------------------------------------------------------------------------------------------
  // The matches of a stream
  // ---------------------------------------------------------------------------------------------

  function MatchesFrom(rs: seq<Replacement>, stream: string, position: nat): seq<Match>
    requires position <= |stream|
    decreases |stream| - position
  {
    if position == |stream| then []
    else match Longest(rs, stream[position..])
    case Some(r) =>
      [Match(position, position + |r.pattern|, r.text)] + MatchesFrom(rs, stream, position + |r.pattern|)
    case None => MatchesFrom(rs, stream, position + 1)
  }

  /** In order and apart, between two positions. */
  ghost predicate Sorted(ms: seq<Match>, low: nat, high: nat) {
    low <= high &&
    (ms == [] || (low <= ms[0].start < ms[0].end && Sorted(ms[1..], ms[0].end, high)))
  }

  lemma {:induction false} SortedWeaker(ms: seq<Match>, low: nat, lower: nat, high: nat)
    requires Sorted(ms, low, high) && lower <= low
    ensures Sorted(ms, lower, high)
  {
  }

  lemma {:induction false} MatchesAreSorted(rs: seq<Replacement>, stream: string, position: nat)
    requires position <= |stream|
    ensures Sorted(MatchesFrom(rs, stream, position), position, |stream|)
    decreases |stream| - position
  {
    if position < |stream| {
      match Longest(rs, stream[position..])
      case Some(r) => MatchesAreSorted(rs, stream, position + |r.pattern|);
      case None =>
        MatchesAreSorted(rs, stream, position + 1);
        SortedWeaker(MatchesFrom(rs, stream, position + 1), position + 1, position, |stream|);
    }
  }

  /** Some match overlaps a range. */
  ghost predicate Hit(ms: seq<Match>, from: nat, end: nat) {
    exists m :: m in ms && m.start < end && from < m.end
  }

  lemma MatchHere(rs: seq<Replacement>, stream: string, position: nat)
    requires position < |stream| && Longest(rs, stream[position..]).Some?
    ensures var r := Longest(rs, stream[position..]).value; var next := position + |r.pattern|;
      && position < next <= |stream|
      && MatchesFrom(rs, stream, position) == [Match(position, next, r.text)] + MatchesFrom(rs, stream, next)
  {
  }

  lemma NoMatchHere(rs: seq<Replacement>, stream: string, position: nat)
    requires position < |stream| && Longest(rs, stream[position..]).None?
    ensures MatchesFrom(rs, stream, position) == MatchesFrom(rs, stream, position + 1)
  {
  }

  lemma HitFirst(m: Match, ms: seq<Match>, all: seq<Match>, from: nat, end: nat)
    requires all == [m] + ms && m.start < end && from < m.end
    ensures Hit(all, from, end)
  {
    assert all[0] == m;
  }

  lemma HitLater(m: Match, ms: seq<Match>, all: seq<Match>, from: nat, end: nat)
    requires all == [m] + ms && Hit(ms, from, end)
    ensures Hit(all, from, end)
  {
    var n :| n in ms && n.start < end && from < n.end;
    assert n in all;
  }

  lemma FitsLater(rs: seq<Replacement>, stream: string, position: nat, at: nat, r: Replacement)
    requires position <= at <= |stream| && r in rs && Fits(r, stream[at..])
    requires Longest(rs, stream[position..]).None?
    ensures position < at
  {
    LongestIsLongest(rs, stream[position..]);
  }

  /** Every occurrence of a pattern, whether it was replaced or not, overlaps a match. */
  lemma {:induction false} OccurrencesAreHit(rs: seq<Replacement>, stream: string, position: nat, at: nat,
                                             r: Replacement)
    requires position <= at <= |stream| && r in rs && Fits(r, stream[at..])
    ensures Hit(MatchesFrom(rs, stream, position), at, at + |r.pattern|)
    decreases |stream| - position
  {
    var best, all, end := Longest(rs, stream[position..]), MatchesFrom(rs, stream, position), at + |r.pattern|;
    if best.Some? {
      var m := Match(position, position + |best.value.pattern|, best.value.text);
      var ms := MatchesFrom(rs, stream, m.end);
      MatchHere(rs, stream, position);
      if m.end <= at {
        OccurrencesAreHit(rs, stream, m.end, at, r);
        HitLater(m, ms, all, at, end);
      } else {
        HitFirst(m, ms, all, at, end);
      }
    } else {
      FitsLater(rs, stream, position, at, r);
      NoMatchHere(rs, stream, position);
      OccurrencesAreHit(rs, stream, position + 1, at, r);
    }
  }

  // ---------------------------------------------------------------------------------------------
  // What a range of the stream becomes
  // ---------------------------------------------------------------------------------------------

  /** The text of a range: a match that starts in it puts its replacement there, one that reaches
      into it only swallows. */
  function Render(stream: string, ms: seq<Match>, from: nat, end: nat): string
    requires from <= end <= |stream|
    decreases |ms|
  {
    if ms == [] || ms[0].start >= end then stream[from..end]
    else if ms[0].end <= from then Render(stream, ms[1..], from, end)
    else
      var tail := if ms[0].end < end then Render(stream, ms[1..], ms[0].end, end) else "";
      if ms[0].start < from then tail else stream[from..ms[0].start] + ms[0].text + tail
  }

  /** What follows a match that reaches into the range. */
  function Rest(stream: string, ms: seq<Match>, end: nat): string
    requires ms != [] && end <= |stream|
  {
    if ms[0].end < end then Render(stream, ms[1..], ms[0].end, end) else ""
  }

  lemma SplitBefore(stream: string, ms: seq<Match>, from: nat, mid: nat, end: nat)
    requires from <= mid <= end <= |stream| && ms != [] && mid <= ms[0].start < end && ms[0].start < ms[0].end
    ensures Render(stream, ms, from, end) == Render(stream, ms, from, mid) + Render(stream, ms, mid, end)
  {
    var m, tail := ms[0], Rest(stream, ms, end);
    JoinSlices(stream, from, mid, m.start);
    Associative(stream[mid..m.start], m.text, tail);
    Associative(stream[from..mid], stream[mid..m.start], m.text + tail);
    Associative(stream[from..m.start], m.text, tail);
  }

  lemma EmptyRange(stream: string, ms: seq<Match>, at: nat)
    requires Sorted(ms, at, |stream|) && at <= |stream|
    ensures Render(stream, ms, at, at) == ""
  {
  }

  /** What a match leaves of the range up to its end. */
  function Before(stream: string, m: Match, from: nat): string
    requires m.start <= |stream|
  {
    if m.start < from then "" else stream[from..m.start] + m.text
  }

  lemma RenderInside(stream: string, ms: seq<Match>, from: nat, end: nat)
    requires from <= end <= |stream| && ms != [] && ms[0].start < end && from < ms[0].end
    ensures Render(stream, ms, from, end) == Before(stream, ms[0], from) + Rest(stream, ms, end)
  {
  }

  lemma SplitInside(stream: string, ms: seq<Match>, from: nat, mid: nat, end: nat)
    requires from <= mid <= end <= |stream| && ms != [] && ms[0].start < mid && from < ms[0].end
    requires ms[0].end <= mid ==> Rest(stream, ms, end) == Rest(stream, ms, mid) + Render(stream, ms[1..], mid, end)
    ensures Render(stream, ms, from, end) == Render(stream, ms, from, mid) + Render(stream, ms, mid, end)
  {
    var m := ms[0];
    var before := Before(stream, m, from);
    RenderInside(stream, ms, from, end);
    RenderInside(stream, ms, from, mid);
    if m.end <= mid {
      Associative(before, Rest(stream, ms, mid), Render(stream, ms, mid, end));
    }
  }

  /** A range can be rendered in two parts. */
  lemma {:induction false} RenderSplits(stream: string, ms: seq<Match>, low: nat, from: nat, mid: nat, end: nat)
    requires Sorted(ms, low, |stream|) && from <= mid <= end <= |stream|
    ensures Render(stream, ms, from, end) == Render(stream, ms, from, mid) + Render(stream, ms, mid, end)
    decreases |ms|
  {
    if ms == [] || ms[0].start >= end {
      JoinSlices(stream, from, mid, end);
    } else if ms[0].end <= from {
      RenderSplits(stream, ms[1..], ms[0].end, from, mid, end);
    } else if ms[0].start >= mid {
      SplitBefore(stream, ms, from, mid, end);
    } else {
      if ms[0].end <= mid {
        RenderSplits(stream, ms[1..], ms[0].end, ms[0].end, mid, end);
        EmptyRange(stream, ms[1..], ms[0].end);
      }
      SplitInside(stream, ms, from, mid, end);
    }
  }

  lemma UnmatchedFront(stream: string, ms: seq<Match>, position: nat)
    requires position < |stream| && Sorted(ms, position + 1, |stream|)
    ensures Render(stream, ms, position, |stream|) == [stream[position]] + Render(stream, ms, position + 1, |stream|)
  {
    SortedWeaker(ms, position + 1, position, |stream|);
    RenderSplits(stream, ms, position, position, position + 1, |stream|);
    assert stream[position..position + 1] == [stream[position]];
  }

  lemma MatchedFront(stream: string, all: seq<Match>)
    requires all != [] && all[0].start < all[0].end <= |stream| && Sorted(all[1..], all[0].end, |stream|)
    ensures Render(stream, all, all[0].start, |stream|)
         == all[0].text + Render(stream, all[1..], all[0].end, |stream|)
  {
    var m, ms := all[0], all[1..];
    var tail := if m.end < |stream| then Render(stream, ms, m.end, |stream|) else "";
    assert Render(stream, all, m.start, |stream|) == stream[m.start..m.start] + m.text + tail;
    assert stream[m.start..m.start] + m.text == m.text;
    if m.end == |stream| { EmptyRange(stream, ms, m.end); }
  }

  lemma MatchedFirst(stream: string, m: Match, ms: seq<Match>, all: seq<Match>)
    requires all == [m] + ms && m.start < m.end <= |stream| && Sorted(ms, m.end, |stream|)
    ensures Render(stream, all, m.start, |stream|) == m.text + Render(stream, ms, m.end, |stream|)
  {
    assert all[0] == m && all[1..] == ms;
    MatchedFront(stream, all);
  }

  /** Rendering and replacing go the same way from a position: the same text, and on from the same place. */
  ghost predicate SameStep(rs: seq<Replacement>, stream: string, position: nat, front: string, next: nat) {
    && position < next <= |stream|
    && Render(stream, MatchesFrom(rs, stream, position), position, |stream|)
         == front + Render(stream, MatchesFrom(rs, stream, next), next, |stream|)
    && Redact(rs, stream[position..]) == front + Redact(rs, stream[next..])
  }

  lemma RendersFront(rs: seq<Replacement>, stream: string, position: nat)
    requires position < |stream| && Longest(rs, stream[position..]).Some?
    ensures var best := Longest(rs, stream[position..]).value; var next := position + |best.pattern|;
      && position < next <= |stream|
      && Render(stream, MatchesFrom(rs, stream, position), position, |stream|)
           == best.text + Render(stream, MatchesFrom(rs, stream, next), next, |stream|)
  {
    var best := Longest(rs, stream[position..]).value;
    var next := position + |best.pattern|;
    MatchHere(rs, stream, position);
    MatchesAreSorted(rs, stream, next);
    MatchedFirst(stream, Match(position, next, best.text), MatchesFrom(rs, stream, next),
                 MatchesFrom(rs, stream, position));
  }

  lemma RedactsFront(rs: seq<Replacement>, stream: string, position: nat)
    requires position < |stream| && Longest(rs, stream[position..]).Some?
    ensures var best := Longest(rs, stream[position..]).value; var next := position + |best.pattern|;
      next <= |stream| && Redact(rs, stream[position..]) == best.text + Redact(rs, stream[next..])
  {
    var best := Longest(rs, stream[position..]).value;
    assert stream[position..][|best.pattern|..] == stream[position + |best.pattern|..];
  }

  lemma MatchedStep(rs: seq<Replacement>, stream: string, position: nat)
    requires position < |stream| && Longest(rs, stream[position..]).Some?
    ensures var best := Longest(rs, stream[position..]).value;
      SameStep(rs, stream, position, best.text, position + |best.pattern|)
  {
    RendersFront(rs, stream, position);
    RedactsFront(rs, stream, position);
  }

  lemma UnmatchedStep(rs: seq<Replacement>, stream: string, position: nat)
    requires position < |stream| && Longest(rs, stream[position..]).None?
    ensures SameStep(rs, stream, position, [stream[position]], position + 1)
  {
    NoMatchHere(rs, stream, position);
    MatchesAreSorted(rs, stream, position + 1);
    UnmatchedFront(stream, MatchesFrom(rs, stream, position + 1), position);
    assert stream[position..][1..] == stream[position + 1..];
  }

  lemma OneStep(rs: seq<Replacement>, stream: string, position: nat)
    requires position < |stream|
    ensures exists front, next :: SameStep(rs, stream, position, front, next)
  {
    if Longest(rs, stream[position..]).Some? {
      MatchedStep(rs, stream, position);
    } else {
      UnmatchedStep(rs, stream, position);
    }
  }

  /** The matches from a position on render the rest of the stream as leftmost-longest replacement does. */
  lemma {:induction false} RenderIsRedact(rs: seq<Replacement>, stream: string, position: nat)
    requires position <= |stream|
    ensures Render(stream, MatchesFrom(rs, stream, position), position, |stream|) == Redact(rs, stream[position..])
    decreases |stream| - position
  {
    if position < |stream| {
      OneStep(rs, stream, position);
      var front, next :| SameStep(rs, stream, position, front, next);
      RenderIsRedact(rs, stream, next);
    }
  }

  /** A match is rendered once, where it starts: there its replacement stands for the character, the
      rest of it disappears, and every character outside the matches stays. */
  lemma {:induction false} RenderedAt(stream: string, ms: seq<Match>, low: nat, at: nat)
    requires Sorted(ms, low, |stream|) && at < |stream|
    ensures forall m | m in ms && m.start == at :: Render(stream, ms, at, at + 1) == m.text
    ensures forall m | m in ms && m.start < at < m.end :: Render(stream, ms, at, at + 1) == ""
    ensures (forall m | m in ms :: !(m.start <= at < m.end)) ==> Render(stream, ms, at, at + 1) == [stream[at]]
    decreases |ms|
  {
    if ms != [] {
      RenderedAt(stream, ms[1..], ms[0].end, at);
      SortedBounds(ms[1..], ms[0].end, |stream|);
      assert forall m | m in ms :: m == ms[0] || m in ms[1..];
      assert stream[at..at] == "";
    }
  }

  lemma {:induction false} SortedBounds(ms: seq<Match>, low: nat, high: nat)
    requires Sorted(ms, low, high)
    ensures forall m | m in ms :: low <= m.start < m.end
    decreases |ms|
  {
    if ms != [] {
      SortedBounds(ms[1..], ms[0].end, high);
      assert forall m | m in ms :: m == ms[0] || m in ms[1..];
    }
  }

  // ---------------------------------------------------------------------------------------------
  // The lines of a recording
  // ---------------------------------------------------------------------------------------------

  function Data(line: Line): string {
    if line.OutputLine? then line.data else ""
  }

  function StreamOf(lines: seq<Line>): string {
    if lines == [] then "" else StreamOf(lines[..|lines| - 1]) + Data(lines[|lines| - 1])
  }

  lemma {:induction false} StreamPrefix(lines: seq<Line>, k: nat)
    requires k <= |lines|
    ensures StreamOf(lines[..k]) <= StreamOf(lines)
    decreases |lines|
  {
    if k < |lines| {
      var init := lines[..|lines| - 1];
      assert lines[..k] == init[..k];
      StreamPrefix(init, k);
    } else {
      assert lines[..k] == lines;
    }
  }

  function Start(lines: seq<Line>, k: nat): (start: nat)
    requires k <= |lines|
    ensures start <= |StreamOf(lines)|
  {
    StreamPrefix(lines, k);
    |StreamOf(lines[..k])|
  }

  lemma Ordered(lines: seq<Line>, k: nat)
    requires k < |lines|
    ensures Start(lines, k) <= Start(lines, k + 1)
    ensures Start(lines, k + 1) == Start(lines, k) + |Data(lines[k])|
    ensures Data(lines[k]) == StreamOf(lines)[Start(lines, k)..Start(lines, k + 1)]
  {
    assert lines[..k + 1][..k] == lines[..k];
    StreamPrefix(lines, k + 1);
  }

  function RedactedLine(rs: seq<Replacement>, lines: seq<Line>, k: nat): Line
    requires k < |lines|
  {
    Ordered(lines, k);
    var stream := StreamOf(lines);
    if lines[k].OtherLine? || stream == "" || rs == [] then lines[k]
    else lines[k].(data := Render(stream, MatchesFrom(rs, stream, 0), Start(lines, k), Start(lines, k + 1)))
  }

  function Redacted(rs: seq<Replacement>, lines: seq<Line>): seq<Line> {
    seq(|lines|, k requires 0 <= k < |lines| => RedactedLine(rs, lines, k))
  }

  lemma StreamNext(lines: seq<Line>, k: nat)
    requires 0 < k <= |lines|
    ensures StreamOf(lines[..k]) == StreamOf(lines[..k - 1]) + Data(lines[k - 1])
  {
    assert lines[..k][..k - 1] == lines[..k - 1];
  }

  lemma RedactedData(rs: seq<Replacement>, lines: seq<Line>, k: nat)
    requires k < |lines| && StreamOf(lines) != "" && rs != []
    ensures Start(lines, k) <= Start(lines, k + 1)
    ensures Data(Redacted(rs, lines)[k])
         == Render(StreamOf(lines), MatchesFrom(rs, StreamOf(lines), 0), Start(lines, k), Start(lines, k + 1))
  {
    Ordered(lines, k);
    if lines[k].OtherLine? { EmptySpan(StreamOf(lines), MatchesFrom(rs, StreamOf(lines), 0), Start(lines, k)); }
  }

  lemma {:induction false} RedactedPrefix(rs: seq<Replacement>, lines: seq<Line>, k: nat, stream: string,
                                          ms: seq<Match>)
    requires k <= |lines| && stream == StreamOf(lines) && stream != "" && rs != []
    requires ms == MatchesFrom(rs, stream, 0) && Sorted(ms, 0, |stream|)
    ensures StreamOf(Redacted(rs, lines)[..k]) == Render(stream, ms, 0, Start(lines, k))
    decreases k
  {
    if k == 0 {
      assert lines[..0] == [];
      EmptyRange(stream, ms, 0);
    } else {
      RedactedPrefix(rs, lines, k - 1, stream, ms);
      Ordered(lines, k - 1);
      RedactedData(rs, lines, k - 1);
      PrefixGrows(Redacted(rs, lines), k, stream, ms, Start(lines, k - 1), Start(lines, k));
    }
  }

  lemma PrefixGrows(lines: seq<Line>, k: nat, stream: string, ms: seq<Match>, mid: nat, end: nat)
    requires 0 < k <= |lines| && Sorted(ms, 0, |stream|) && mid <= end <= |stream|
    requires StreamOf(lines[..k - 1]) == Render(stream, ms, 0, mid)
    requires Data(lines[k - 1]) == Render(stream, ms, mid, end)
    ensures StreamOf(lines[..k]) == Render(stream, ms, 0, end)
  {
    StreamNext(lines, k);
    RenderSplits(stream, ms, 0, 0, mid, end);
  }

  lemma {:induction false} EmptySpan(stream: string, ms: seq<Match>, at: nat)
    requires at <= |stream|
    ensures Render(stream, ms, at, at) == ""
    decreases |ms|
  {
    if ms != [] && ms[0].start < at && ms[0].end <= at { EmptySpan(stream, ms[1..], at); }
  }

  lemma {:induction false} NothingToReplace(s: string)
    ensures Redact([], s) == s
    decreases |s|
  {
    if s != "" { NothingToReplace(s[1..]); }
  }

  /** Where the recording was cut into events makes no difference: the redacted output is the
      leftmost-longest replacement of the whole output. Everything but the data is untouched. */
  lemma RedactionIgnoresBoundaries(rs: seq<Replacement>, lines: seq<Line>)
    ensures StreamOf(Redacted(rs, lines)) == Redact(rs, StreamOf(lines))
    ensures |Redacted(rs, lines)| == |lines|
    ensures forall k | 0 <= k < |lines| ::
      if lines[k].OutputLine? then Redacted(rs, lines)[k].OutputLine? && Redacted(rs, lines)[k].rest == lines[k].rest
      else Redacted(rs, lines)[k] == lines[k]
  {
    var stream := StreamOf(lines);
    if stream == "" || rs == [] {
      assert Redacted(rs, lines) == lines;
      NothingToReplace(stream);
    } else {
      MatchesAreSorted(rs, stream, 0);
      RedactedPrefix(rs, lines, |lines|, stream, MatchesFrom(rs, stream, 0));
      RenderIsRedact(rs, stream, 0);
      assert lines[..|lines|] == lines && Redacted(rs, lines)[..|lines|] == Redacted(rs, lines);
      assert stream[0..] == stream;
    }
  }

  lemma CutsDoNotMatter(rs: seq<Replacement>, a: seq<Line>, b: seq<Line>)
    requires StreamOf(a) == StreamOf(b)
    ensures StreamOf(Redacted(rs, a)) == StreamOf(Redacted(rs, b))
  {
    RedactionIgnoresBoundaries(rs, a);
    RedactionIgnoresBoundaries(rs, b);
  }

  // ---------------------------------------------------------------------------------------------
  // The rewriting in place
  // ---------------------------------------------------------------------------------------------

  datatype Range = Range(index: nat, start: nat, end: nat)

  /** The output lines with where their data begins and ends in the stream. */
  function RangesOf(lines: seq<Line>): seq<Range> {
    if lines == [] then []
    else
      var k := |lines| - 1;
      var before := RangesOf(lines[..k]);
      if lines[k].OutputLine?
      then before + [Range(k, |StreamOf(lines[..k])|, |StreamOf(lines)|)] else before
  }

  method CollectOutput(lines: seq<Line>) returns (stream: string, ranges: seq<Range>)
    ensures stream == StreamOf(lines) && ranges == RangesOf(lines)
  {
    stream, ranges := "", [];
    for index := 0 to |lines|
      invariant stream == StreamOf(lines[..index]) && ranges == RangesOf(lines[..index])
    {
      assert lines[..index + 1][..index] == lines[..index];
      if lines[index].OutputLine? {
        var start := |stream|;
        stream := stream + lines[index].data;
        ranges := ranges + [Range(index, start, |stream|)];
      }
    }
    assert lines[..|lines|] == lines;
  }

  /** The matches found so far and those from the position on are all there are. */
  ghost predicate FoundBefore(rs: seq<Replacement>, stream: string, found: seq<Match>, position: nat) {
    position <= |stream| && MatchesFrom(rs, stream, 0) == found + MatchesFrom(rs, stream, position)
  }

  lemma FoundHere(rs: seq<Replacement>, stream: string, found: seq<Match>, position: nat)
    requires FoundBefore(rs, stream, found, position)
    requires position < |stream| && Longest(rs, stream[position..]).Some?
    ensures var r := Longest(rs, stream[position..]).value; var next := position + |r.pattern|;
      position < next && FoundBefore(rs, stream, found + [Match(position, next, r.text)], next)
  {
    var r := Longest(rs, stream[position..]).value;
    var next := position + |r.pattern|;
    MatchHere(rs, stream, position);
    Associative(found, [Match(position, next, r.text)], MatchesFrom(rs, stream, next));
  }

  lemma NotFoundHere(rs: seq<Replacement>, stream: string, found: seq<Match>, position: nat)
    requires FoundBefore(rs, stream, found, position)
    requires position < |stream| && Longest(rs, stream[position..]).None?
    ensures FoundBefore(rs, stream, found, position + 1)
  {
    NoMatchHere(rs, stream, position);
  }

  method FindMatches(rs: seq<Replacement>, stream: string) returns (matches: seq<Match>)
    ensures matches == MatchesFrom(rs, stream, 0)
  {
    matches := [];
    var position := 0;
    while position < |stream|
      invariant FoundBefore(rs, stream, matches, position)
    {
      var best := Longest(rs, stream[position..]);
      if best.Some? {
        FoundHere(rs, stream, matches, position);
        matches := matches + [Match(position, position + |best.value.pattern|, best.value.text)];
        position := position + |best.value.pattern|;
      } else {
        NotFoundHere(rs, stream, matches, position);
        position := position + 1;
      }
    }
  }

  function Tail(stream: string, ms: seq<Match>, cursor: nat, end: nat): string
    requires end <= |stream|
  {
    if cursor < end then Render(stream, ms, cursor, end) else ""
  }

  lemma TailSkips(stream: string, ms: seq<Match>, low: nat, start: nat, cursor: nat, end: nat)
    requires ms != [] && Sorted(ms, low, |stream|) && start <= cursor && start <= end <= |stream|
    requires cursor == start || cursor <= low
    requires ms[0].end <= start || ms[0].start >= end
    ensures Tail(stream, ms, cursor, end) == Tail(stream, ms[1..], cursor, end)
  {
  }

  /** What a match that reaches into the event adds to it. */
  function Added(stream: string, m: Match, start: nat, cursor: nat): string
    requires m.start <= |stream|
  {
    if m.start < start then ""
    else if cursor < m.start then stream[cursor..m.start] + m.text
    else m.text
  }

  lemma TailTakes(stream: string, ms: seq<Match>, low: nat, start: nat, cursor: nat, end: nat)
    requires ms != [] && Sorted(ms, low, |stream|) && start <= cursor && start <= end <= |stream|
    requires cursor == start || cursor <= low
    requires start < ms[0].end && ms[0].start < end
    ensures cursor <= ms[0].end
    ensures Tail(stream, ms, cursor, end) == Added(stream, ms[0], start, cursor) + Tail(stream, ms[1..], ms[0].end, end)
  {
    var m := ms[0];
    if cursor == m.start && cursor < end {
      assert stream[cursor..cursor] + m.text == m.text;
    }
  }

  /** One match: what has been written so far and what is still to come make up the event. */
  ghost predicate RangeSoFar(stream: string, ms: seq<Match>, i: nat, start: nat, end: nat, cursor: nat,
                             redacted: string)
    requires start <= end <= |stream| && i <= |ms|
  {
    Render(stream, ms, start, end) == redacted + Tail(stream, ms[i..], cursor, end)
  }

  lemma RangeSkips(stream: string, ms: seq<Match>, i: nat, low: nat, start: nat, end: nat, cursor: nat,
                   redacted: string)
    requires start <= end <= |stream| && i < |ms| && start <= cursor && Sorted(ms[i..], low, |stream|)
    requires cursor == start || cursor <= low
    requires ms[i].end <= start || ms[i].start >= end
    requires RangeSoFar(stream, ms, i, start, end, cursor, redacted)
    ensures RangeSoFar(stream, ms, i + 1, start, end, cursor, redacted)
  {
    assert ms[i..][0] == ms[i] && ms[i..][1..] == ms[i + 1..];
    TailSkips(stream, ms[i..], low, start, cursor, end);
  }

  lemma RangeTakes(stream: string, ms: seq<Match>, i: nat, low: nat, start: nat, end: nat, cursor: nat,
                   redacted: string)
    requires start <= end <= |stream| && i < |ms| && start <= cursor && Sorted(ms[i..], low, |stream|)
    requires cursor == start || cursor <= low
    requires start < ms[i].end && ms[i].start < end
    requires RangeSoFar(stream, ms, i, start, end, cursor, redacted)
    ensures cursor <= ms[i].end
    ensures RangeSoFar(stream, ms, i + 1, start, end, ms[i].end, redacted + Added(stream, ms[i], start, cursor))
  {
    assert ms[i..][0] == ms[i] && ms[i..][1..] == ms[i + 1..];
    TailTakes(stream, ms[i..], low, start, cursor, end);
    Associative(redacted, Added(stream, ms[i], start, cursor), Tail(stream, ms[i + 1..], ms[i].end, end));
  }

  /** The text of one event, match by match. */
  method RenderRange(stream: string, matches: seq<Match>, start: nat, end: nat) returns (redacted: string)
    requires start <= end <= |stream| && Sorted(matches, 0, |stream|)
    ensures redacted == Render(stream, matches, start, end)
  {
    redacted := "";
    var cursor, i := start, 0;
    ghost var low: nat := 0;
    if start == end { EmptySpan(stream, matches, start); }
    assert matches[0..] == matches;
    while i < |matches|
      invariant i <= |matches| && start <= cursor
      invariant Sorted(matches[i..], low, |stream|) && (cursor == start || cursor <= low)
      invariant RangeSoFar(stream, matches, i, start, end, cursor, redacted)
    {
      var m := matches[i];
      assert matches[i..][0] == m && matches[i..][1..] == matches[i + 1..];
      if m.end <= start || m.start >= end {
        RangeSkips(stream, matches, i, low, start, end, cursor, redacted);
      } else {
        RangeTakes(stream, matches, i, low, start, end, cursor, redacted);
        ghost var before := redacted;
        if m.start >= start {
          if cursor < m.start {
            redacted := redacted + stream[cursor..m.start];
            Associative(before, stream[cursor..m.start], m.text);
          }
          redacted := redacted + m.text;
        }
        assert redacted == before + Added(stream, m, start, cursor);
        cursor := if cursor < m.end then m.end else cursor;
      }
      low := m.end;
      i := i + 1;
    }
    if cursor < end {
      redacted := redacted + stream[cursor..end];
    }
  }

  /** The lines after the first n ranges were rewritten. */
  function Rewritten(lines: seq<Line>, ranges: seq<Range>, stream: string, ms: seq<Match>, n: nat): (after: seq<Line>)
    requires n <= |ranges|
    ensures |after| == |lines|
  {
    if n == 0 then lines
    else
      var before, r := Rewritten(lines, ranges, stream, ms, n - 1), ranges[n - 1];
      if r.index < |lines| && before[r.index].OutputLine? && r.start <= r.end <= |stream|
      then before[r.index := before[r.index].(data := Render(stream, ms, r.start, r.end))]
      else before
  }

  lemma {:induction false} RewrittenPrefix(lines: seq<Line>, a: seq<Range>, b: seq<Range>, stream: string,
                                           ms: seq<Match>, n: nat)
    requires n <= |a| <= |b| && a == b[..|a|]
    ensures Rewritten(lines, a, stream, ms, n) == Rewritten(lines, b, stream, ms, n)
    decreases n
  {
    if n > 0 { RewrittenPrefix(lines, a, b, stream, ms, n - 1); }
  }

  lemma Advance(after: seq<Line>, before: seq<Line>, k: nat)
    requires 0 < k <= |before| == |after|
    ensures (after[..k - 1] + before[k - 1..])[k - 1 := after[k - 1]] == after[..k] + before[k..]
    ensures (after[..k - 1] + before[k - 1..])[k - 1] == before[k - 1]
  {
  }

  /** The first k lines redacted, the others not yet. */
  function Partly(rs: seq<Replacement>, lines: seq<Line>, k: nat): seq<Line>
    requires k <= |lines|
  {
    Redacted(rs, lines)[..k] + lines[k..]
  }

  lemma PartlyNext(rs: seq<Replacement>, lines: seq<Line>, k: nat)
    requires k < |lines|
    ensures Partly(rs, lines, k)[k] == lines[k]
    ensures Partly(rs, lines, k + 1) == Partly(rs, lines, k)[k := RedactedLine(rs, lines, k)]
  {
    Advance(Redacted(rs, lines), lines, k + 1);
  }

  lemma RangesNext(lines: seq<Line>, k: nat)
    requires k < |lines|
    ensures Start(lines, k) <= Start(lines, k + 1) <= |StreamOf(lines)|
    ensures RangesOf(lines[..k + 1]) ==
      if lines[k].OutputLine? then RangesOf(lines[..k]) + [Range(k, Start(lines, k), Start(lines, k + 1))]
      else RangesOf(lines[..k])
  {
    assert lines[..k + 1][..k] == lines[..k];
    Ordered(lines, k);
  }

  lemma RewrittenNext(lines: seq<Line>, a: seq<Range>, r: Range, stream: string, ms: seq<Match>, before: seq<Line>)
    requires before == Rewritten(lines, a, stream, ms, |a|)
    requires r.index < |lines| && r.start <= r.end <= |stream| && before[r.index].OutputLine?
    ensures Rewritten(lines, a + [r], stream, ms, |a| + 1)
         == before[r.index := before[r.index].(data := Render(stream, ms, r.start, r.end))]
  {
    var b := a + [r];
    assert b[|a|] == r && b[..|a|] == a;
    RewrittenPrefix(lines, a, b, stream, ms, |a|);
  }

  lemma PartlyOutput(rs: seq<Replacement>, lines: seq<Line>, k: nat, stream: string, ms: seq<Match>)
    requires k < |lines| && lines[k].OutputLine?
    requires stream == StreamOf(lines) && stream != "" && rs != [] && ms == MatchesFrom(rs, stream, 0)
    ensures Start(lines, k) <= Start(lines, k + 1)
    ensures RedactedLine(rs, lines, k) == lines[k].(data := Render(stream, ms, Start(lines, k), Start(lines, k + 1)))
  {
    Ordered(lines, k);
  }

  ghost predicate RewrittenSoFar(rs: seq<Replacement>, lines: seq<Line>, stream: string, ms: seq<Match>, k: nat)
    requires k <= |lines|
  {
    Rewritten(lines, RangesOf(lines[..k]), stream, ms, |RangesOf(lines[..k])|) == Partly(rs, lines, k)
  }

  lemma RewriteStep(rs: seq<Replacement>, lines: seq<Line>, stream: string, ms: seq<Match>, k: nat)
    requires stream == StreamOf(lines) && stream != "" && rs != [] && ms == MatchesFrom(rs, stream, 0)
    requires k < |lines| && RewrittenSoFar(rs, lines, stream, ms, k)
    ensures RewrittenSoFar(rs, lines, stream, ms, k + 1)
  {
    RangesNext(lines, k);
    PartlyNext(rs, lines, k);
    if lines[k].OutputLine? {
      PartlyOutput(rs, lines, k, stream, ms);
      RewrittenNext(lines, RangesOf(lines[..k]), Range(k, Start(lines, k), Start(lines, k + 1)), stream, ms,
                    Partly(rs, lines, k));
    } else {
      assert RedactedLine(rs, lines, k) == lines[k];
      assert Partly(rs, lines, k)[k := lines[k]] == Partly(rs, lines, k);
    }
  }

  /** Rewriting the ranges of the first k lines redacts those and leaves the others. */
  lemma {:induction false} RewrittenIsRedacted(rs: seq<Replacement>, lines: seq<Line>, k: nat, stream: string,
                                               ms: seq<Match>)
    requires k <= |lines| && stream == StreamOf(lines) && stream != "" && rs != [] && ms == MatchesFrom(rs, stream, 0)
    ensures RewrittenSoFar(rs, lines, stream, ms, k)
    decreases k
  {
    if k == 0 {
      assert lines[..0] == [] && Partly(rs, lines, 0) == lines;
    } else {
      RewrittenIsRedacted(rs, lines, k - 1, stream, ms);
      RewriteStep(rs, lines, stream, ms, k - 1);
    }
  }

  lemma {:induction false} RangesAreValid(lines: seq<Line>, j: nat)
    requires j < |RangesOf(lines)|
    ensures var r := RangesOf(lines)[j];
      r.index < |lines| && lines[r.index].OutputLine? && r.start <= r.end <= |StreamOf(lines)|
    decreases |lines|
  {
    var k := |lines| - 1;
    if j < |RangesOf(lines[..k])| { RangesAreValid(lines[..k], j); }
  }

  lemma {:induction false} RewrittenKinds(lines: seq<Line>, ranges: seq<Range>, stream: string, ms: seq<Match>,
                                          n: nat, k: nat)
    requires n <= |ranges| && k < |lines|
    ensures Rewritten(lines, ranges, stream, ms, n)[k].OutputLine? == lines[k].OutputLine?
    decreases n
  {
    if n > 0 { RewrittenKinds(lines, ranges, stream, ms, n - 1, k); }
  }

  lemma AllRewritten(rs: seq<Replacement>, lines: seq<Line>, stream: string, ms: seq<Match>)
    requires stream == StreamOf(lines) && stream != "" && rs != [] && ms == MatchesFrom(rs, stream, 0)
    ensures Rewritten(lines, RangesOf(lines), stream, ms, |RangesOf(lines)|) == Redacted(rs, lines)
  {
    RewrittenIsRedacted(rs, lines, |lines|, stream, ms);
    assert lines[..|lines|] == lines && Partly(rs, lines, |lines|) == Redacted(rs, lines);
  }

  lemma NothingRedacted(rs: seq<Replacement>, lines: seq<Line>)
    requires StreamOf(lines) == "" || rs == []
    ensures Redacted(rs, lines) == lines
  {
  }

  lemma RewriteOne(lines: seq<Line>, ranges: seq<Range>, stream: string, ms: seq<Match>, i: nat)
    requires i < |ranges| && ranges == RangesOf(lines) && stream == StreamOf(lines)
    ensures var r := ranges[i]; var before := Rewritten(lines, ranges, stream, ms, i);
      && r.index < |lines| && before[r.index].OutputLine? && r.start <= r.end <= |stream|
      && Rewritten(lines, ranges, stream, ms, i + 1)
           == before[r.index := before[r.index].(data := Render(stream, ms, r.start, r.end))]
  {
    RangesAreValid(lines, i);
    RewrittenKinds(lines, ranges, stream, ms, i, ranges[i].index);
  }

  /** Redacts the lines of a recording where they stand. */
  method RedactOutputStream(lines: array<Line>, rs: seq<Replacement>)
    modifies lines
    ensures lines[..] == Redacted(rs, old(lines[..]))
  {
    ghost var was := lines[..];
    var stream, ranges := CollectOutput(lines[..]);
    if stream == "" || rs == [] {
      NothingRedacted(rs, was);
      return;
    }
    var matches := FindMatches(rs, stream);
    MatchesAreSorted(rs, stream, 0);
    for i := 0 to |ranges|
      invariant lines[..] == Rewritten(was, ranges, stream, matches, i)
    {
      var range := ranges[i];
      RewriteOne(was, ranges, stream, matches, i);
      assert lines[..][range.index] == lines[range.index];
      var redacted := RenderRange(stream, matches, range.start, range.end);
      lines[range.index] := lines[range.index].(data := redacted);
    }
    AllRewritten(rs, was, stream, matches);
  }
}
