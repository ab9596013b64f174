// The device that turns lines into messages: a line buffer, a priority list of templates, and a
// read() that returns as soon as the buffered lines decide.
module MessageDevices {
  import opened Text
  import opened Templates
  import opened TemplateParsing

  // What read() hands over, with the raw lines it stands for.
  datatype Item = Msg(message: Message) | Raw(line: string)
  datatype Chunk = Chunk(item: Item, raw: seq<string>)

  // What the buffered lines say: hand over an item made of the first n lines, wait for more
  // lines, or raise.
  datatype Decision = Emit(item: Item, n: nat) | Wait | Raise

  predicate WellFormed(ts: seq<Template>) {
    forall t | t in ts :: t.steps != []
  }

  // The templates from number k on, in list order; the oldest line if none is left.
  function Decide(ts: seq<Template>, k: nat, lines: seq<string>): (d: Decision)
    requires WellFormed(ts) && k <= |ts| && lines != []
    ensures d.Emit? ==> 1 <= d.n <= |lines|
    decreases |ts| - k
  {
    if k == |ts| then Emit(Raw(lines[0]), 1)
    else
      StepsAdvance(ts[k], 0, lines, 0, map[]);
      match Parse(ts[k], lines)
      case Match(m, n) => assert ts[k] in ts; Emit(Msg(m), n)
      case NeedMore => Wait
      case Crash => Raise
      case Mismatch => Decide(ts, k + 1, lines)
  }

  // ---------- batch tokenization ----------

  function Tokens(ts: seq<Template>, lines: seq<string>): seq<Chunk>
    requires WellFormed(ts)
    decreases |lines|
  {
    if lines == [] then []
    else
      match Decide(ts, 0, lines)
      case Emit(item, n) => [Chunk(item, lines[..n])] + Tokens(ts, lines[n..])
      case _ => []
  }

  // The lines the batch leaves undecided.
  function Rest(ts: seq<Template>, lines: seq<string>): seq<string>
    requires WellFormed(ts)
    decreases |lines|
  {
    if lines == [] then []
    else
      match Decide(ts, 0, lines)
      case Emit(item, n) => Rest(ts, lines[n..])
      case _ => lines
  }

  function RawLines(chunks: seq<Chunk>): seq<string> {
    if chunks == [] then [] else chunks[0].raw + RawLines(chunks[1..])
  }

  lemma {:induction false} RawAppend(a: seq<Chunk>, b: seq<Chunk>)
    ensures RawLines(a + b) == RawLines(a) + RawLines(b)
  {
    if a == [] {
      assert a + b == b;
    } else {
      RawAppend(a[1..], b);
      assert (a + b)[0] == a[0] && (a + b)[1..] == a[1..] + b;
      ConcatAssoc(a[0].raw, RawLines(a[1..]), RawLines(b));
    }
  }

  lemma {:induction false} BatchConserves(ts: seq<Template>, lines: seq<string>)
    requires WellFormed(ts)
    ensures RawLines(Tokens(ts, lines)) + Rest(ts, lines) == lines
    decreases |lines|
  {
    if lines != [] && Decide(ts, 0, lines).Emit? {
      BatchConserves(ts, lines[Decide(ts, 0, lines).n..]);
    }
  }

  lemma {:induction false} DecideStable(ts: seq<Template>, k: nat, lines: seq<string>, more: seq<string>)
    requires WellFormed(ts) && k <= |ts| && lines != []
    ensures !Decide(ts, k, lines).Wait? ==> Decide(ts, k, lines + more) == Decide(ts, k, lines)
    decreases |ts| - k
  {
    if k < |ts| {
      ParseStable(ts[k], lines, more);
      DecideStable(ts, k + 1, lines, more);
    }
  }

  // Tokenizing can stop anywhere and go on later.
  lemma {:induction false} BatchAppend(ts: seq<Template>, a: seq<string>, b: seq<string>)
    requires WellFormed(ts)
    ensures Tokens(ts, a + b) == Tokens(ts, a) + Tokens(ts, Rest(ts, a) + b)
    ensures Rest(ts, a + b) == Rest(ts, Rest(ts, a) + b)
    decreases |a|
  {
    if a == [] {
      assert a + b == b;
    } else {
      DecideStable(ts, 0, a, b);
      match Decide(ts, 0, a) {
        case Emit(item, n) =>
          assert (a + b)[..n] == a[..n] && (a + b)[n..] == a[n..] + b;
          BatchAppend(ts, a[n..], b);
        case _ =>
      }
    }
  }

  // ---------- reading ----------

  datatype ReadOutcome = Item(chunk: Chunk) | Timeout | Raised

  // A read() call: the buffer, and the lines the serial port is still going to return ("" for a
  // timeout; nothing but timeouts once the list is used up).
  datatype ReadResult = ReadResult(outcome: ReadOutcome, lines: seq<string>, port: seq<string>)

  const BLANK := "\r\n"

  function ReadOne(ts: seq<Template>, lines: seq<string>, port: seq<string>): ReadResult
    requires WellFormed(ts)
    decreases |port|
  {
    var decision := if lines == [] then Wait else Decide(ts, 0, lines);
    match decision
    case Emit(item, n) => ReadResult(Item(Chunk(item, lines[..n])), lines[n..], port)
    case Raise => ReadResult(Raised, lines, port)
    case Wait =>
      if port == [] then ReadResult(Timeout, lines, [])
      else if port[0] == "" then ReadResult(Timeout, lines, port[1..])
      else if port[0] == BLANK then ReadOne(ts, lines, port[1..])
      else ReadOne(ts, lines + [port[0]], port[1..])
  }

  // The lines that count among those the port returned.
  function NonBlank(port: seq<string>): seq<string> {
    if port == [] then []
    else if port[0] in {"", "\r\n"} then NonBlank(port[1..])
    else [port[0]] + NonBlank(port[1..])
  }

  // The counting lines taken from the port, given what is left of it.
  function Received(port: seq<string>, left: seq<string>): seq<string>
    requires |left| <= |port|
  {
    NonBlank(port[..|port| - |left|])
  }

  lemma {:induction false} NonBlankAppend(a: seq<string>, b: seq<string>)
    ensures NonBlank(a + b) == NonBlank(a) + NonBlank(b)
  {
    if a == [] {
      assert a + b == b;
    } else {
      NonBlankAppend(a[1..], b);
      assert (a + b)[0] == a[0] && (a + b)[1..] == a[1..] + b;
      ConcatAssoc([a[0]], NonBlank(a[1..]), NonBlank(b));
    }
  }

  lemma ReceivedOneMore(port: seq<string>, left: seq<string>)
    requires port != [] && |left| < |port|
    ensures Received(port, left) ==
            if port[0] in {"", BLANK} then Received(port[1..], left) else [port[0]] + Received(port[1..], left)
  {
    assert port[..|port| - |left|][1..] == port[1..][..|port| - 1 - |left|];
  }

  lemma ReceivedNothing(port: seq<string>)
    ensures Received(port, port) == []
  {}

  // The batch over what was in the buffer and what came in, against the result of one read.
  ghost predicate Continues(ts: seq<Template>, lines: seq<string>, port: seq<string>, r: ReadResult)
    requires WellFormed(ts)
  {
    && |r.port| <= |port| && port[|port| - |r.port|..] == r.port
    && Tokens(ts, lines + Received(port, r.port)) ==
         (if r.outcome.Item? then [r.outcome.chunk] + Tokens(ts, r.lines) else Tokens(ts, r.lines))
    && Rest(ts, lines + Received(port, r.port)) == Rest(ts, r.lines)
  }

  lemma ImmediateRead(ts: seq<Template>, lines: seq<string>, port: seq<string>)
    requires WellFormed(ts)
    requires port == [] || (lines != [] && !Decide(ts, 0, lines).Wait?)
    ensures Continues(ts, lines, port, ReadOne(ts, lines, port))
  {
    hide Received;
    ReceivedNothing(port);
    assert lines + [] == lines;
  }

  // A blank line does not change what a read continues.
  lemma BlankKeepsContinuing(ts: seq<Template>, lines: seq<string>, port: seq<string>, r: ReadResult)
    requires WellFormed(ts) && port != [] && port[0] == BLANK
    requires Continues(ts, lines, port[1..], r)
    ensures Continues(ts, lines, port, r)
  {
    hide Tokens, Rest, Received;
    ReceivedOneMore(port, r.port);
    assert port[1..][|port| - 1 - |r.port|..] == port[|port| - |r.port|..];
  }

  // A line moved from the port to the buffer is still part of the same batch.
  lemma LineKeepsContinuing(ts: seq<Template>, lines: seq<string>, port: seq<string>, r: ReadResult)
    requires WellFormed(ts) && port != [] && port[0] !in {"", BLANK}
    requires Continues(ts, lines + [port[0]], port[1..], r)
    ensures Continues(ts, lines, port, r)
  {
    hide Tokens, Rest, Received;
    ReceivedOneMore(port, r.port);
    assert port[1..][|port| - 1 - |r.port|..] == port[|port| - |r.port|..];
    assert lines + Received(port, r.port) == (lines + [port[0]]) + Received(port[1..], r.port);
  }

  // A timeout returns the buffer as it is.
  lemma TimeoutContinues(ts: seq<Template>, lines: seq<string>, port: seq<string>)
    requires WellFormed(ts) && port != [] && port[0] == ""
    ensures Continues(ts, lines, port, ReadResult(Timeout, lines, port[1..]))
  {
    hide Tokens, Rest, Received;
    ReceivedOneMore(port, port[1..]);
    ReceivedNothing(port[1..]);
    assert lines + [] == lines;
  }

  // One read continues the batch.
  lemma {:induction false} ReadContinuesBatch(ts: seq<Template>, lines: seq<string>, port: seq<string>)
    requires WellFormed(ts)
    ensures Continues(ts, lines, port, ReadOne(ts, lines, port))
    decreases |port|
  {
    hide Continues, Decide;
    if port == [] || (lines != [] && !Decide(ts, 0, lines).Wait?) {
      ImmediateRead(ts, lines, port);
    } else if port[0] == "" {
      TimeoutContinues(ts, lines, port);
    } else if port[0] == BLANK {
      ReadContinuesBatch(ts, lines, port[1..]);
      BlankKeepsContinuing(ts, lines, port, ReadOne(ts, lines, port[1..]));
    } else {
      ReadContinuesBatch(ts, lines + [port[0]], port[1..]);
      LineKeepsContinuing(ts, lines, port, ReadOne(ts, lines + [port[0]], port[1..]));
    }
  }

  // n reads in a row: the chunks returned, the buffer, and what is left of the port.
  datatype Session = Session(chunks: seq<Chunk>, lines: seq<string>, port: seq<string>)

  function ReadMany(ts: seq<Template>, lines: seq<string>, port: seq<string>, n: nat): Session
    requires WellFormed(ts)
    decreases n
  {
    if n == 0 then Session([], lines, port)
    else
      var s := ReadMany(ts, lines, port, n - 1);
      var r := ReadOne(ts, s.lines, s.port);
      Session(if r.outcome.Item? then s.chunks + [r.outcome.chunk] else s.chunks, r.lines, r.port)
  }

  // The batch of everything received equals what was returned and what the buffer still decides.
  ghost predicate InStep(ts: seq<Template>, lines: seq<string>, port: seq<string>, s: Session)
    requires WellFormed(ts)
  {
    && |s.port| <= |port| && port[|port| - |s.port|..] == s.port
    && Tokens(ts, lines + Received(port, s.port)) == s.chunks + Tokens(ts, s.lines)
    && Rest(ts, lines + Received(port, s.port)) == Rest(ts, s.lines)
  }

  lemma ReadKeepsStep(ts: seq<Template>, lines: seq<string>, port: seq<string>, s: Session)
    requires WellFormed(ts) && InStep(ts, lines, port, s)
    ensures var r := ReadOne(ts, s.lines, s.port);
            InStep(ts, lines, port,
                   Session(if r.outcome.Item? then s.chunks + [r.outcome.chunk] else s.chunks, r.lines, r.port))
  {
    hide Tokens, Rest, Received, ReadOne;
    var r := ReadOne(ts, s.lines, s.port);
    ReadContinuesBatch(ts, s.lines, s.port);
    var a, b := lines + Received(port, s.port), Received(s.port, r.port);
    ReceivedInTwo(port, s.port, r.port);
    assert lines + Received(port, r.port) == a + b;
    BatchAppend(ts, a, b);
    BatchAppend(ts, s.lines, b);
    if r.outcome.Item? {
      assert s.chunks + ([r.outcome.chunk] + Tokens(ts, r.lines)) ==
             (s.chunks + [r.outcome.chunk]) + Tokens(ts, r.lines);
    }
  }

  lemma ReceivedInTwo(port: seq<string>, mid: seq<string>, left: seq<string>)
    requires |left| <= |mid| <= |port| && port[|port| - |mid|..] == mid
    ensures Received(port, left) == Received(port, mid) + Received(mid, left)
  {
    NonBlankAppend(port[..|port| - |mid|], mid[..|mid| - |left|]);
    assert port[..|port| - |left|] == port[..|port| - |mid|] + mid[..|mid| - |left|];
  }

  // Streaming equals batch: whatever the port returns, wherever timeouts and empty lines fall,
  // and however often read() is called, the items returned so far followed by the tokens still in
  // the buffer are the tokens of all lines received.
  lemma {:induction false} StreamingIsBatch(ts: seq<Template>, lines: seq<string>, port: seq<string>, n: nat)
    requires WellFormed(ts)
    ensures InStep(ts, lines, port, ReadMany(ts, lines, port, n))
    decreases n
  {
    hide InStep, ReadOne;
    if n == 0 {
      StartsInStep(ts, lines, port);
    } else {
      StreamingIsBatch(ts, lines, port, n - 1);
      ReadKeepsStep(ts, lines, port, ReadMany(ts, lines, port, n - 1));
    }
  }

  lemma StartsInStep(ts: seq<Template>, lines: seq<string>, port: seq<string>)
    requires WellFormed(ts)
    ensures InStep(ts, lines, port, Session([], lines, port))
  {
    assert port[..0] == [] && lines + Received(port, port) == lines;
  }

  // No line is lost, repeated or reordered: the raw lines of the items returned, followed by the
  // buffer, are the lines received.
  lemma LinesAreConserved(ts: seq<Template>, lines: seq<string>, port: seq<string>, n: nat)
    requires WellFormed(ts)
    ensures var s := ReadMany(ts, lines, port, n);
            |s.port| <= |port| && RawLines(s.chunks) + s.lines == lines + Received(port, s.port)
  {
    hide Tokens, Rest, Received;
    StreamingIsBatch(ts, lines, port, n);
    var s := ReadMany(ts, lines, port, n);
    BatchConserves(ts, lines + Received(port, s.port));
    BatchConserves(ts, s.lines);
    RawAppend(s.chunks, Tokens(ts, s.lines));
    var r, t := RawLines(Tokens(ts, s.lines)), Rest(ts, s.lines);
    assert (RawLines(s.chunks) + r) + t == RawLines(s.chunks) + (r + t);
  }

  // Each item stands for at least one line. A timeout is returned only while the buffered lines
  // decide nothing, and only adds the lines received to the buffer.
  lemma {:induction false} ReadOutcomes(ts: seq<Template>, lines: seq<string>, port: seq<string>)
    requires WellFormed(ts)
    ensures var r := ReadOne(ts, lines, port);
            && (r.outcome.Item? ==> r.outcome.chunk.raw != [])
            && (r.outcome.Timeout? ==> r.lines == [] || Decide(ts, 0, r.lines).Wait?)
            && (r.outcome.Timeout? ==> lines <= r.lines)
            && (r.outcome.Raised? ==> r.lines != [] && Decide(ts, 0, r.lines).Raise?)
    decreases |port|
  {
    if port != [] {
      ReadOutcomes(ts, lines, port[1..]);
      ReadOutcomes(ts, lines + [port[0]], port[1..]);
    }
  }

  // ---------- what the items are ----------

  // Each of the first k templates mismatches on these lines.
  ghost predicate Passed(ts: seq<Template>, k: nat, lines: seq<string>) {
    k <= |ts| && forall j | 0 <= j < k :: Parse(ts[j], lines).Mismatch?
  }

  // An item taken from the front of these lines: the oldest line as it is, which no template fits,
  // or the message of the first template that does not mismatch, with the lines it took.
  ghost predicate Fits(ts: seq<Template>, chunk: Chunk, lines: seq<string>) {
    chunk.raw <= lines &&
    match chunk.item
    case Raw(line) => chunk.raw == [line] && Passed(ts, |ts|, lines)
    case Msg(m) => exists k :: 0 <= k < |ts| && Passed(ts, k, lines) && Parse(ts[k], lines) == Match(m, |chunk.raw|)
  }

  // The first template that does not mismatch ends like this.
  ghost predicate Stops(ts: seq<Template>, lines: seq<string>, outcome: Outcome<Message>) {
    exists k :: 0 <= k < |ts| && Passed(ts, k, lines) && Parse(ts[k], lines) == outcome
  }

  lemma {:induction false} DecideFits(ts: seq<Template>, k: nat, lines: seq<string>)
    requires WellFormed(ts) && lines != [] && Passed(ts, k, lines)
    ensures match Decide(ts, k, lines)
            case Emit(item, n) => Fits(ts, Chunk(item, lines[..n]), lines)
            case Wait => Stops(ts, lines, NeedMore)
            case Raise => Stops(ts, lines, Crash)
    decreases |ts| - k
  {
    hide Parse;
    if k == |ts| {
      assert lines[..1] == [lines[0]];
    } else if Parse(ts[k], lines).Mismatch? {
      DecideFits(ts, k + 1, lines);
    }
  }

  // What a read returns: an item that fits the lines it was taken from; a timeout with nothing
  // buffered or a template that needs more lines; an exception of a template.
  lemma {:induction false} ReadFits(ts: seq<Template>, lines: seq<string>, port: seq<string>)
    requires WellFormed(ts)
    ensures var r := ReadOne(ts, lines, port);
            match r.outcome
            case Item(chunk) => Fits(ts, chunk, chunk.raw + r.lines)
            case Timeout => r.lines == [] || Stops(ts, r.lines, NeedMore)
            case Raised => Stops(ts, r.lines, Crash)
    decreases |port|
  {
    hide Fits, Stops, Decide;
    if lines != [] {
      DecideFits(ts, 0, lines);
      match Decide(ts, 0, lines) {
        case Emit(_, n) => assert lines[..n] + lines[n..] == lines;
        case _ =>
      }
    }
    if port != [] {
      ReadFits(ts, lines, port[1..]);
      ReadFits(ts, lines + [port[0]], port[1..]);
    }
  }

  // These lines decide nothing.
  ghost predicate Open(ts: seq<Template>, lines: seq<string>) {
    lines == [] || Stops(ts, lines, NeedMore)
  }

  // What was taken from the port: nothing once the lines decide something, nothing behind a timeout.
  ghost predicate InTime(ts: seq<Template>, lines: seq<string>, port: seq<string>, r: ReadResult) {
    var taken := |port| - |r.port|;
    && 0 <= taken && r.port == port[taken..]
    && (forall k | 0 <= k < taken :: Open(ts, lines + NonBlank(port[..k])))
    && (forall k | 0 <= k < taken :: port[k] == "" ==> k == taken - 1 && r.outcome.Timeout?)
    && (r.outcome.Timeout? ==> r.port == [] || (taken > 0 && port[taken - 1] == ""))
  }

  // How far a read goes: it takes the next line from the port only while the lines it has decide
  // nothing, and it ends with the first timeout.
  lemma {:induction false} ReadStopsInTime(ts: seq<Template>, lines: seq<string>, port: seq<string>)
    requires WellFormed(ts)
    ensures InTime(ts, lines, port, ReadOne(ts, lines, port))
    decreases |port|
  {
    hide InTime, Open, Decide;
    if port == [] || (lines != [] && !Decide(ts, 0, lines).Wait?) {
      NothingTaken(ts, lines, port, ReadOne(ts, lines, port));
    } else {
      StillOpen(ts, lines);
      if port[0] == "" {
        TimeoutTaken(ts, lines, port, ReadOne(ts, lines, port));
      } else {
        var next := if port[0] == BLANK then lines else lines + [port[0]];
        ReadStopsInTime(ts, next, port[1..]);
        LineTaken(ts, lines, port, ReadOne(ts, next, port[1..]));
      }
    }
  }

  lemma StillOpen(ts: seq<Template>, lines: seq<string>)
    requires WellFormed(ts) && (lines == [] || Decide(ts, 0, lines).Wait?)
    ensures Open(ts, lines)
  {
    if lines != [] {
      DecideFits(ts, 0, lines);
    }
  }

  lemma NothingTaken(ts: seq<Template>, lines: seq<string>, port: seq<string>, r: ReadResult)
    requires r.port == port && (r.outcome.Timeout? ==> port == [])
    ensures InTime(ts, lines, port, r)
  {}

  lemma TimeoutTaken(ts: seq<Template>, lines: seq<string>, port: seq<string>, r: ReadResult)
    requires port != [] && port[0] == "" && r.port == port[1..] && r.outcome.Timeout? && Open(ts, lines)
    ensures InTime(ts, lines, port, r)
  {
    hide Open;
    assert port[..0] == [] && lines + [] == lines;
  }

  lemma LineTaken(ts: seq<Template>, lines: seq<string>, port: seq<string>, r: ReadResult)
    requires port != [] && port[0] != "" && Open(ts, lines)
    requires InTime(ts, if port[0] == "\r\n" then lines else lines + [port[0]], port[1..], r)
    ensures InTime(ts, lines, port, r)
  {
    hide Open, NonBlank;
    var next := if port[0] == "\r\n" then lines else lines + [port[0]];
    var taken := |port| - |r.port|;
    forall k | 0 <= k < taken
      ensures Open(ts, lines + NonBlank(port[..k]))
      ensures port[k] == "" ==> k == taken - 1 && r.outcome.Timeout?
    {
      if k == 0 {
        NoneReceived(port[..0]);
        assert lines + [] == lines;
      } else {
        OneReceived(port, k);
        SameBuffer(lines, port[0], NonBlank(port[1..][..k - 1]));
        assert Open(ts, next + NonBlank(port[1..][..k - 1]));
        assert port[k] == port[1..][k - 1];
      }
    }
    assert port[1..][taken - 1..] == port[taken..];
  }

  lemma SameBuffer(lines: seq<string>, line: string, more: seq<string>)
    ensures lines + ([line] + more) == (lines + [line]) + more
    ensures lines + ([] + more) == lines + more
  {}

  lemma NoneReceived(port: seq<string>)
    ensures port == [] ==> NonBlank(port) == []
  {}

  lemma OneReceived(port: seq<string>, k: nat)
    requires 1 <= k <= |port|
    ensures NonBlank(port[..k]) ==
            (if port[0] in {"", "\r\n"} then [] else [port[0]]) + NonBlank(port[1..][..k - 1])
  {
    assert port[..k][1..] == port[1..][..k - 1];
    assert [] + NonBlank(port[1..][..k - 1]) == NonBlank(port[1..][..k - 1]);
  }

  // Lines that come later do not change what fits.
  lemma FitsMore(ts: seq<Template>, chunk: Chunk, lines: seq<string>, more: seq<string>)
    requires Fits(ts, chunk, lines)
    ensures Fits(ts, chunk, lines + more)
  {
    hide Parse;
    PassedMore(ts, |ts|, lines, more);
    if chunk.item.Msg? {
      var k :| 0 <= k < |ts| && Passed(ts, k, lines) && Parse(ts[k], lines) == Match(chunk.item.message, |chunk.raw|);
      PassedMore(ts, k, lines, more);
      ParseStable(ts[k], lines, more);
    }
  }

  lemma PassedMore(ts: seq<Template>, k: nat, lines: seq<string>, more: seq<string>)
    ensures Passed(ts, k, lines) ==> Passed(ts, k, lines + more)
  {
    hide Parse;
    forall j | 0 <= j < k <= |ts|
      ensures Parse(ts[j], lines).Mismatch? ==> Parse(ts[j], lines + more).Mismatch?
    {
      ParseStable(ts[j], lines, more);
    }
  }

  // Each item fits the lines from its own first line on, down to the last line received.
  ghost predicate AllFit(ts: seq<Template>, chunks: seq<Chunk>, rest: seq<string>) {
    chunks == [] || (Fits(ts, chunks[0], RawLines(chunks) + rest) && AllFit(ts, chunks[1..], rest))
  }

  lemma {:induction false} AllFitMore(ts: seq<Template>, chunks: seq<Chunk>, rest: seq<string>, more: seq<string>)
    requires AllFit(ts, chunks, rest)
    ensures AllFit(ts, chunks, rest + more)
  {
    hide Fits;
    if chunks != [] {
      FitsMore(ts, chunks[0], RawLines(chunks) + rest, more);
      ConcatAssoc(RawLines(chunks), rest, more);
      AllFitMore(ts, chunks[1..], rest, more);
    }
  }

  lemma {:induction false} AllFitNext(ts: seq<Template>, chunks: seq<Chunk>, chunk: Chunk, rest: seq<string>)
    requires AllFit(ts, chunks, chunk.raw + rest) && Fits(ts, chunk, chunk.raw + rest)
    ensures AllFit(ts, chunks + [chunk], rest)
  {
    hide Fits;
    var all := chunks + [chunk];
    RawAppend(chunks, [chunk]);
    assert RawLines([chunk]) == chunk.raw + [] == chunk.raw;
    ConcatAssoc(RawLines(chunks), chunk.raw, rest);
    if chunks == [] {
      assert all == [chunk] && all[1..] == [];
    } else {
      assert all[0] == chunks[0] && all[1..] == chunks[1..] + [chunk];
      AllFitNext(ts, chunks[1..], chunk, rest);
    }
  }

  // A read adds lines behind those it had.
  lemma {:induction false} ReadAddsLines(ts: seq<Template>, lines: seq<string>, port: seq<string>)
    requires WellFormed(ts)
    ensures var r := ReadOne(ts, lines, port);
            lines <= (if r.outcome.Item? then r.outcome.chunk.raw + r.lines else r.lines)
    decreases |port|
  {
    hide Decide;
    if lines != [] {
      match Decide(ts, 0, lines) {
        case Emit(_, n) => assert lines[..n] + lines[n..] == lines;
        case _ =>
      }
    }
    if port != [] {
      ReadAddsLines(ts, lines, port[1..]);
      ReadAddsLines(ts, lines + [port[0]], port[1..]);
    }
  }

  // Every item of every session is the oldest line that nothing fits, or the message of the first
  // template that fits.
  lemma {:induction false} ItemsFit(ts: seq<Template>, lines: seq<string>, port: seq<string>, n: nat)
    requires WellFormed(ts)
    ensures var s := ReadMany(ts, lines, port, n);
            AllFit(ts, s.chunks, s.lines)
    decreases n
  {
    hide ReadOne, AllFit, Fits;
    if n == 0 {
      assert AllFit(ts, [], lines) by { NothingFits(ts, lines); }
    } else {
      ItemsFit(ts, lines, port, n - 1);
      var s := ReadMany(ts, lines, port, n - 1);
      var r := ReadOne(ts, s.lines, s.port);
      ReadAddsLines(ts, s.lines, s.port);
      ReadFits(ts, s.lines, s.port);
      var all := if r.outcome.Item? then r.outcome.chunk.raw + r.lines else r.lines;
      assert all == s.lines + all[|s.lines|..];
      AllFitMore(ts, s.chunks, s.lines, all[|s.lines|..]);
      if r.outcome.Item? {
        AllFitNext(ts, s.chunks, r.outcome.chunk, r.lines);
      }
    }
  }

  lemma NothingFits(ts: seq<Template>, rest: seq<string>)
    ensures AllFit(ts, [], rest)
  {}

  // A template list that raised on the buffered lines raises again on every later read.
  lemma RaisedForGood(ts: seq<Template>, lines: seq<string>, port: seq<string>, more: seq<string>)
    requires WellFormed(ts) && ReadOne(ts, lines, port).outcome.Raised?
    ensures var r := ReadOne(ts, lines, port);
            && ReadOne(ts, r.lines, r.port) == r
            && ReadOne(ts, r.lines + more, r.port).outcome.Raised?
  {
    ReadOutcomes(ts, lines, port);
    DecideStable(ts, 0, ReadOne(ts, lines, port).lines, more);
  }

  // ---------- the device object ----------

  class MessageDevice {
    const templates: seq<Template>
    var lines: seq<string>
    // What the serial port is still going to return.
    var port: seq<string>

    constructor (templates: seq<Template>, port: seq<string>)
      ensures this.templates == templates && lines == [] && this.port == port
    {
      this.templates := templates;
      lines := [];
      this.port := port;
    }

    method PortRead() returns (line: string)
      modifies this`port
      ensures if old(port) == [] then line == "" && port == [] else [line] + port == old(port)
    {
      line := "";
      if port != [] {
        line := port[0];
        port := port[1..];
      }
    }

    // The for loop over the templates, with its else branch.
    method TryTemplates() returns (d: Decision)
      requires WellFormed(templates) && lines != []
      ensures d == Decide(templates, 0, lines)
    {
      var k := 0;
      while k < |templates|
        invariant 0 <= k <= |templates|
        invariant Decide(templates, k, lines) == Decide(templates, 0, lines)
      {
        var it := new LineIterator(lines);
        var st, msg := ParseTemplate(templates[k], it);
        match st {
          case Ok => return Emit(Msg(Message(msg.opcode.value, msg.fields)), it.pos);
          case StopIteration => return Wait;
          case OtherException => return Raise;
          case ParsingException =>
        }
        k := k + 1;
      }
      d := Emit(Raw(lines[0]), 1);
    }

    // read()
    method Read() returns (outcome: ReadOutcome)
      requires WellFormed(templates)
      modifies this
      ensures ReadResult(outcome, lines, port) == ReadOne(templates, old(lines), old(port))
    {
      while true
        invariant ReadOne(templates, lines, port) == ReadOne(templates, old(lines), old(port))
        decreases |port|
      {
        if lines != [] {
          var d := TryTemplates();
          match d {
            case Emit(item, n) =>
              outcome := Item(Chunk(item, lines[..n]));
              lines := lines[n..];
              return;
            case Raise => return Raised;
            case Wait =>
          }
        }
        var line := PortRead();
        if line == "" {
          return Timeout;
        }
        if line != BLANK {
          lines := lines + [line];
        }
      }
    }
  }
}
