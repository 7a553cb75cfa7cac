/** Paging through the provider registry file, and the discover jobs that follow its cursors. */
module Nppes {
  import opened Options

  const BATCH: nat := 500

  /** A file is its bytes; positions are byte offsets. */
  type Bytes = string

  datatype Candidate = Candidate(npi: string, name: string, taxonomies: seq<string>)

  /** Reads a line as a row, filters it and builds the candidate. */
  type Picker = Bytes -> Option<Candidate>

  // ---------------------------------------------------------------- lines

  /** The first line with its terminator: a line feed, a carriage return, or both. */
  function LineLength(s: Bytes): (n: nat)
    requires s != ""
    ensures 0 < n <= |s|
  {
    if s[0] == '\n' || |s| == 1 then 1
    else if s[0] == '\r' then (if s[1] == '\n' then 2 else 1)
    else 1 + LineLength(s[1..])
  }

  function HeaderLength(file: Bytes): (n: nat)
    ensures n <= |file|
  {
    if file == "" then 0 else LineLength(file)
  }

  function Picked(line: Bytes, pick: Picker): seq<Candidate> {
    match pick(line) case Some(c) => [c] case None => []
  }

  /** What one pass over the text keeps. */
  function Kept(s: Bytes, pick: Picker): seq<Candidate>
    decreases |s|
  {
    if s == "" then []
    else Picked(s[..LineLength(s)], pick) + Kept(s[LineLength(s)..], pick)
  }

  /** What one pass from an offset to the end keeps. */
  function KeptFrom(file: Bytes, at: nat, pick: Picker): seq<Candidate>
    requires at <= |file|
  {
    Kept(file[at..], pick)
  }

  lemma NextLine(file: Bytes, at: nat, pick: Picker)
    requires at < |file|
    ensures var n := LineLength(file[at..]);
      KeptFrom(file, at, pick) == Picked(file[at..at + n], pick) + KeptFrom(file, at + n, pick)
  {
    var rest := file[at..];
    var n := LineLength(rest);
    assert rest[..n] == file[at..at + n] && rest[n..] == file[at + n..];
  }

  lemma NothingAtEnd(file: Bytes, pick: Picker)
    ensures KeptFrom(file, |file|, pick) == []
  {
  }

  // ---------------------------------------------------------------- what a line is

  predicate Break(c: char) { c == '\n' || c == '\r' }

  /** Not a break, or the carriage return in front of the final line feed. */
  predicate Inner(line: Bytes, i: nat)
    requires i + 1 < |line|
  {
    !Break(line[i]) || (i + 2 == |line| && line[i] == '\r' && line[i + 1] == '\n')
  }

  /** A line with its end: a text without line breaks, and then a line feed, a carriage return that no
      line feed follows, or both; the last line may lack its end. */
  predicate WholeLine(line: Bytes, rest: Bytes) {
    && line != ""
    && (forall i | 0 <= i < |line| - 1 :: Inner(line, i))
    && (line[|line| - 1] == '\r' ==> rest == "" || rest[0] != '\n')
    && (!Break(line[|line| - 1]) ==> rest == "")
  }

  /** The line found is the only one that can stand in front. */
  lemma {:induction false} LineExactly(line: Bytes, rest: Bytes)
    requires line != ""
    ensures LineLength(line + rest) == |line| <==> WholeLine(line, rest)
  {
    var s := line + rest;
    if Break(s[0]) || |s| == 1 {
      BreakInFront(line, rest);
    } else {
      var tail := line[1..];
      assert s[1..] == tail + rest;
      if tail == "" {
        assert rest == s[1..];
      } else {
        LineExactly(tail, rest);
        LongerLine(line[0], tail, rest);
        assert line == [line[0]] + tail;
      }
    }
  }

  lemma BreakInFront(line: Bytes, rest: Bytes)
    requires line != "" && (Break(line[0]) || |line + rest| == 1)
    ensures LineLength(line + rest) == |line| <==> WholeLine(line, rest)
  {
    var s := line + rest;
    if |line| > 1 {
      assert Inner(line, 0) <==> |line| == 2 && line[0] == '\r' && line[1] == '\n';
      assert s[1] == line[1];
    }
  }

  lemma LongerLine(c: char, tail: Bytes, rest: Bytes)
    requires tail != "" && !Break(c)
    ensures WholeLine([c] + tail, rest) <==> WholeLine(tail, rest)
  {
    var line := [c] + tail;
    forall i | 0 <= i < |tail| - 1 ensures Inner(line, i + 1) <==> Inner(tail, i) {
      assert line[i + 1] == tail[i] && line[i + 2] == tail[i + 1];
    }
    assert Inner(line, 0);
    hide Inner, Break;
    assert line[|line| - 1] == tail[|tail| - 1];
    if WholeLine(line, rest) {
      forall i | 0 <= i < |tail| - 1 ensures Inner(tail, i) { assert Inner(line, i + 1); }
    }
    if WholeLine(tail, rest) {
      forall i | 0 <= i < |line| - 1 ensures Inner(line, i) { if i > 0 { assert Inner(tail, i - 1); } }
    }
  }

  function Text(lines: seq<Bytes>): Bytes { if lines == [] then "" else lines[0] + Text(lines[1..]) }

  /** A text cut into its lines. */
  ghost predicate InLines(lines: seq<Bytes>) {
    forall i | 0 <= i < |lines| :: WholeLine(lines[i], Text(lines[i + 1..]))
  }

  /** What is made of each line, in order; lines of which nothing is made are passed over. */
  function Picks(lines: seq<Bytes>, pick: Picker): seq<Candidate> {
    if lines == [] then []
    else if pick(lines[0]).Some? then [pick(lines[0]).value] + Picks(lines[1..], pick)
    else Picks(lines[1..], pick)
  }

  /** A pass over a text reads each of its lines once, in order. */
  lemma {:induction false} EachLineOnce(lines: seq<Bytes>, pick: Picker)
    requires InLines(lines)
    ensures Kept(Text(lines), pick) == Picks(lines, pick)
  {
    hide LineLength, WholeLine;
    if lines != [] {
      var line, rest := lines[0], Text(lines[1..]);
      assert WholeLine(lines[0], Text(lines[0 + 1..]));
      assert line != "" by { LineIsSomething(line, rest); }
      LineExactly(line, rest);
      forall i | 0 <= i < |lines| - 1 ensures WholeLine(lines[1..][i], Text(lines[1..][i + 1..])) {
        assert WholeLine(lines[i + 1], Text(lines[i + 2..])) && lines[1..][i + 1..] == lines[i + 2..];
      }
      EachLineOnce(lines[1..], pick);
      assert (line + rest)[..|line|] == line && (line + rest)[|line|..] == rest;
    }
  }

  lemma LineIsSomething(line: Bytes, rest: Bytes)
    requires WholeLine(line, rest)
    ensures line != ""
  {
  }

  /** The first line is the header; a file without lines has none. */
  lemma HeaderIsFirstLine(header: Bytes, rest: Bytes)
    requires WholeLine(header, rest)
    ensures HeaderLength(header + rest) == |header| && Start(header + rest, None) == |header| && HeaderLength("") == 0
  {
    LineExactly(header, rest);
  }

  // ---------------------------------------------------------------- one page

  datatype Page = Page(candidates: seq<Candidate>, cursor: Option<nat>)

  /** The page that starts at an offset and has room for so many candidates. */
  function PageOf(file: Bytes, at: nat, pick: Picker, room: nat): Page
    requires at <= |file| && room > 0
    decreases |file| - at
  {
    if at == |file| then Page([], None)
    else
      var n := LineLength(file[at..]);
      var got := Picked(file[at..at + n], pick);
      if |got| == room then Page(got, Some(at + n))
      else
        var rest := PageOf(file, at + n, pick, room - |got|);
        Page(got + rest.candidates, rest.cursor)
  }

  /** Where the page leaves off. */
  function Stop(file: Bytes, p: Page): nat {
    match p.cursor case Some(c) => c case None => |file|
  }

  /** The start of a call: behind the header line, or where the cursor says. */
  function Start(file: Bytes, cursor: Option<nat>): nat {
    match cursor case Some(c) => c case None => HeaderLength(file)
  }

  /** A page holds candidates in file order, has a cursor exactly when it is full, and loses
      nothing between its start and its stop. */
  lemma {:induction false} PageLosesNothing(file: Bytes, at: nat, pick: Picker, room: nat)
    requires at <= |file| && room > 0
    ensures var p := PageOf(file, at, pick, room);
      && |p.candidates| <= room
      && (p.cursor.Some? <==> |p.candidates| == room)
      && (p.cursor.Some? ==> at < p.cursor.value <= |file|)
      && KeptFrom(file, at, pick) == p.candidates + KeptFrom(file, Stop(file, p), pick)
    decreases |file| - at
  {
    hide KeptFrom, PageOf, LineLength, Picked;
    OneLineOfPage(file, at, pick, room);
    if at == |file| {
      NothingAtEnd(file, pick);
    } else {
      NextLine(file, at, pick);
      var n := LineLength(file[at..]);
      var got := Picked(file[at..at + n], pick);
      AtMostOne(file[at..at + n], pick);
      if |got| < room {
        PageLosesNothing(file, at + n, pick, room - |got|);
        var rest := PageOf(file, at + n, pick, room - |got|);
        Regrouped(got, rest.candidates, KeptFrom(file, Stop(file, rest), pick));
      }
    }
  }

  lemma OneLineOfPage(file: Bytes, at: nat, pick: Picker, room: nat)
    requires at <= |file| && room > 0
    ensures at == |file| ==> PageOf(file, at, pick, room) == Page([], None)
    ensures at < |file| ==>
      var n := LineLength(file[at..]);
      var got := Picked(file[at..at + n], pick);
      && (|got| == room ==> PageOf(file, at, pick, room) == Page(got, Some(at + n)))
      && (|got| < room ==>
            var rest := PageOf(file, at + n, pick, room - |got|);
            PageOf(file, at, pick, room) == Page(got + rest.candidates, rest.cursor))
  {
    hide LineLength;
  }

  lemma Regrouped(a: seq<Candidate>, b: seq<Candidate>, c: seq<Candidate>)
    ensures a + (b + c) == (a + b) + c
  {
  }

  lemma AtMostOne(line: Bytes, pick: Picker)
    ensures |Picked(line, pick)| <= 1
  {
  }

  /** With `got` collected from `start` up to `at`, the rest of the page is still to come. */
  ghost predicate Pending(file: Bytes, start: nat, at: nat, pick: Picker, got: seq<Candidate>)
    requires start <= |file| && at <= |file| && |got| < BATCH
  {
    var rest := PageOf(file, at, pick, BATCH - |got|);
    PageOf(file, start, pick, BATCH) == Page(got + rest.candidates, rest.cursor)
  }

  lemma OneLineOn(file: Bytes, start: nat, at: nat, pick: Picker, got: seq<Candidate>)
    requires start <= |file| && at < |file| && |got| < BATCH && Pending(file, start, at, pick, got)
    ensures var n := LineLength(file[at..]);
      var more := got + Picked(file[at..at + n], pick);
      && |more| <= BATCH
      && (|more| == BATCH ==> PageOf(file, start, pick, BATCH) == Page(more, Some(at + n)))
      && (|more| < BATCH ==> Pending(file, start, at + n, pick, more))
  {
    var n := LineLength(file[at..]);
    AtMostOne(file[at..at + n], pick);
    hide LineLength, Picked;
  }

  lemma Collected(file: Bytes, start: nat, pick: Picker, got: seq<Candidate>)
    requires start <= |file| && |got| < BATCH
    ensures Pending(file, start, |file|, pick, got) ==> PageOf(file, start, pick, BATCH) == Page(got, None)
    ensures Pending(file, start, start, pick, [])
  {
    assert got + [] == got;
  }

  method Discover(file: Bytes, cursor: Option<nat>, pick: Picker) returns (p: Page)
    requires Start(file, cursor) <= |file|
    ensures p == PageOf(file, Start(file, cursor), pick, BATCH)
  {
    hide LineLength, PageOf, Pending, HeaderLength;
    var start := Start(file, cursor);
    var offset := start;
    var candidates: seq<Candidate> := [];
    Collected(file, start, pick, candidates);
    while offset < |file|
      invariant start <= offset <= |file|
      invariant |candidates| < BATCH
      invariant Pending(file, start, offset, pick, candidates)
    {
      OneLineOn(file, start, offset, pick, candidates);
      var n := LineLength(file[offset..]);
      var candidate := pick(file[offset..offset + n]);
      offset := offset + n;
      assert candidates + [] == candidates;
      if candidate.Some? {
        candidates := candidates + [candidate.value];
      }
      if |candidates| >= BATCH {
        return Page(candidates, Some(offset));
      }
    }
    Collected(file, start, pick, candidates);
    p := Page(candidates, None);
  }

  /** A batch that fills on the last line still hands out a cursor; the page behind it is empty
      and ends the chain. */
  lemma FullOnLastLine(file: Bytes, at: nat, pick: Picker)
    requires at < |file|
    ensures var p := PageOf(file, at, pick, BATCH);
      p.cursor == Some(|file|) ==>
        p.candidates == KeptFrom(file, at, pick) && PageOf(file, |file|, pick, BATCH) == Page([], None)
  {
    PageLosesNothing(file, at, pick, BATCH);
    NothingAtEnd(file, pick);
  }

  // ---------------------------------------------------------------- the discover jobs

  function Flat(pages: seq<Page>): seq<Candidate> {
    if pages == [] then [] else pages[0].candidates + Flat(pages[1..])
  }

  /** The pages that one cohort's discover jobs read from an offset on.  The job for the next page
      is enqueued under a key made of the cohort and the cursor, and a key is taken once and for
      all: `taken` are the cursors used so far. */
  function SweepFrom(file: Bytes, at: nat, pick: Picker, taken: set<nat>): seq<Page>
    requires at <= |file|
    decreases |file| - at
  {
    PageLosesNothing(file, at, pick, BATCH);
    var p := PageOf(file, at, pick, BATCH);
    if p.cursor.None? || p.cursor.value in taken then [p]
    else [p] + SweepFrom(file, p.cursor.value, pick, taken + {p.cursor.value})
  }

  function Cursors(pages: seq<Page>): set<nat> {
    set i | 0 <= i < |pages| && pages[i].cursor.Some? :: pages[i].cursor.value
  }

  method Sweep(file: Bytes, pick: Picker, taken: set<nat>) returns (pages: seq<Page>, nowTaken: set<nat>)
    ensures pages == SweepFrom(file, HeaderLength(file), pick, taken)
    ensures nowTaken == taken + Cursors(pages)
  {
    hide HeaderLength, PageOf, SweepFrom, Cursors, KeptFrom;
    nowTaken := taken;
    pages := [];
    var cursor: Option<nat> := None;
    NoCursors();
    while true
      invariant Start(file, cursor) <= |file|
      invariant SweepFrom(file, HeaderLength(file), pick, taken)
             == pages + SweepFrom(file, Start(file, cursor), pick, nowTaken)
      invariant nowTaken == taken + Cursors(pages)
      decreases |file| - Start(file, cursor)
    {
      PageLosesNothing(file, Start(file, cursor), pick, BATCH);
      OneJob(file, Start(file, cursor), pick, nowTaken);
      var p := Discover(file, cursor, pick);
      OneMore(pages, p);
      pages := pages + [p];
      if p.cursor.None? || p.cursor.value in nowTaken {
        return;
      }
      nowTaken := nowTaken + {p.cursor.value};
      cursor := p.cursor;
    }
  }

  lemma NoCursors()
    ensures Cursors([]) == {}
  {
  }

  lemma OneJob(file: Bytes, at: nat, pick: Picker, taken: set<nat>)
    requires at <= |file|
    ensures var p := PageOf(file, at, pick, BATCH);
      && (p.cursor.Some? ==> p.cursor.value <= |file|)
      && SweepFrom(file, at, pick, taken) == [p] +
           (if p.cursor.None? || p.cursor.value in taken then []
            else SweepFrom(file, p.cursor.value, pick, taken + {p.cursor.value}))
  {
    hide PageOf, KeptFrom;
    PageLosesNothing(file, at, pick, BATCH);
  }

  lemma OneMore(pages: seq<Page>, p: Page)
    ensures Cursors(pages + [p]) == Cursors(pages) + (if p.cursor.Some? then {p.cursor.value} else {})
  {
    var longer := pages + [p];
    forall c | c in Cursors(pages) ensures c in Cursors(longer) {
      var i :| 0 <= i < |pages| && pages[i].cursor == Some(c);
      assert longer[i].cursor == Some(c);
    }
    if p.cursor.Some? { assert longer[|pages|].cursor == p.cursor; }
  }

  /** When no key is taken beyond the starting point, the jobs read the rest of the file in one
      filtered pass: no row is lost or repeated, whatever lines the batches fill on. */
  lemma {:induction false} SweepIsOnePass(file: Bytes, at: nat, pick: Picker, taken: set<nat>)
    requires at <= |file| && forall c | c in taken :: c <= at
    ensures Flat(SweepFrom(file, at, pick, taken)) == KeptFrom(file, at, pick)
    decreases |file| - at
  {
    hide KeptFrom, PageOf;
    PageLosesNothing(file, at, pick, BATCH);
    NothingAtEnd(file, pick);
    var p := PageOf(file, at, pick, BATCH);
    if p.cursor.Some? {
      SweepIsOnePass(file, p.cursor.value, pick, taken + {p.cursor.value});
      assert ([p] + SweepFrom(file, p.cursor.value, pick, taken + {p.cursor.value}))[1..]
          == SweepFrom(file, p.cursor.value, pick, taken + {p.cursor.value});
    } else {
      assert [p][1..] == [];
    }
  }

  /** A cohort's first sweep is one filtered pass over the file behind its header. */
  lemma FirstSweepIsComplete(file: Bytes, pick: Picker)
    ensures Flat(SweepFrom(file, HeaderLength(file), pick, {})) == KeptFrom(file, HeaderLength(file), pick)
  {
    SweepIsOnePass(file, HeaderLength(file), pick, {});
  }

  /** So it reads every line behind the header once, in order, wherever the batches are cut. */
  lemma FirstSweepReadsEachLine(header: Bytes, lines: seq<Bytes>, pick: Picker)
    requires WholeLine(header, Text(lines)) && InLines(lines)
    ensures var file := header + Text(lines);
      Flat(SweepFrom(file, HeaderLength(file), pick, {})) == Picks(lines, pick)
  {
    hide SweepFrom, WholeLine, Kept, HeaderLength;
    var file := header + Text(lines);
    FirstSweepIsComplete(file, pick);
    HeaderIsFirstLine(header, Text(lines));
    EachLineOnce(lines, pick);
    assert file[|header|..] == Text(lines);
  }

  /** A later sweep of the same file finds the key of its second page taken: it reads the first
      page and stops, however many pages follow. */
  lemma LaterSweepIsOnePage(file: Bytes, pick: Picker, taken: set<nat>)
    requires Cursors(SweepFrom(file, HeaderLength(file), pick, {})) <= taken
    ensures SweepFrom(file, HeaderLength(file), pick, taken) == [PageOf(file, HeaderLength(file), pick, BATCH)]
  {
    hide PageOf, HeaderLength;
    var pages := SweepFrom(file, HeaderLength(file), pick, {});
    assert pages[0] == PageOf(file, HeaderLength(file), pick, BATCH);
    if pages[0].cursor.Some? { assert pages[0].cursor.value in Cursors(pages); }
  }
}
