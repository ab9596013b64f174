// The capture automaton behind a WAIT_FOR step whose data is a message descriptor.
module Capture {
  import opened Text

  // The parser function of the descriptor is user code; only the buffer it receives is modelled.
  datatype MsgDescriptor = MsgDescriptor(openTag: string, closeTag: Option<string>, lineCount: int)

  // The attributes kept on the step's storage object: msg_buff, line_count, do_decrement.
  datatype Memory = Memory(buffer: Option<seq<string>>, count: int, counting: bool)

  const FRESH := Memory(Nothing, 0, false)

  predicate Opens(d: MsgDescriptor, line: string) {
    Strip(line) == d.openTag
  }

  predicate Closes(d: MsgDescriptor, line: string) {
    d.closeTag.Nothing? || Contains(Strip(line), d.closeTag.value)
  }

  // What one call leaves in the storage before the final reset, and the buffer handed to the
  // parser when the message is complete.
  function Feed(d: MsgDescriptor, m: Memory, line: string): (Memory, Option<seq<string>>) {
    var m1 := if m.buffer.Nothing? && Opens(d, line)
              then m.(buffer := Just([]), count := d.lineCount) else m;
    if m1.buffer.Nothing? then (m1, Nothing)
    else
      var m2 := m1.(buffer := Just(m1.buffer.value + [line]),
                    counting := m1.counting || Closes(d, line));
      if !m2.counting then (m2, Nothing)
      else
        var m3 := m2.(count := m2.count - 1);
        if m3.count <= 0 then (m3, m3.buffer) else (m3, Nothing)
  }

  // A whole call: after the parser and the callback return, the storage is reset.
  function Step(d: MsgDescriptor, m: Memory, line: string): (Memory, Option<seq<string>>) {
    var (m', out) := Feed(d, m, line);
    (if out.Just? then FRESH else m', out)
  }

  // The storage object of a step, changed in place.
  class MessageStorage {
    var buffer: Option<seq<string>>
    var count: int
    var counting: bool

    ghost function View(): (m: Memory)
      reads this
    {
      Memory(buffer, count, counting)
    }

    constructor ()
      ensures View() == FRESH
    {
      buffer := Nothing;
      count := 0;
      counting := false;
    }

    // try_message_parse; the result is the buffer given to the parser, once there is one.
    method TryMessageParse(d: MsgDescriptor, line: string) returns (complete: Option<seq<string>>)
      modifies this
      ensures (View(), complete) == Step(d, old(View()), line)
    {
      complete := Nothing;
      if buffer.Nothing? && Opens(d, line) {
        buffer := Just([]);
        count := d.lineCount;
      }
      if buffer.Just? {
        buffer := Just(buffer.value + [line]);
        if Closes(d, line) {
          counting := true;
        }
        if counting {
          count := count - 1;
          if count <= 0 {
            complete := buffer;
            buffer := Nothing;
            counting := false;
            count := 0;
          }
        }
      }
    }
  }

  // ---------- which lines open and close a message ----------

  // A new storage starts a message at exactly the lines that are the open tag between blanks. An
  // open tag with blanks at its ends is never found.
  lemma OpeningLine(d: MsgDescriptor, line: string)
    ensures var (m, out) := Step(d, FRESH, line);
            m.buffer.Just? || out.Just? <==>
              Trimmed(d.openTag) && exists a, b :: BetweenBlanks(line, a, d.openTag, b)
  {
    StripIs(line);
    hide Strip, Blank, Trimmed, Closes;
    forall a, b | BetweenBlanks(line, a, d.openTag, b) && Trimmed(d.openTag)
      ensures Strip(line) == d.openTag
    {
      StripTakesBlanks(a, d.openTag, b);
    }
  }

  // While a message is open, a line starts the countdown exactly when the text between its blanks
  // contains the close tag, or there is none.
  lemma ClosingLine(d: MsgDescriptor, m: Memory, a: string, text: string, b: string)
    requires m.buffer.Just? && !m.counting && Blank(a) && Blank(b) && Trimmed(text)
    ensures Feed(d, m, a + text + b).0.counting <==> d.closeTag.Nothing? || Contains(text, d.closeTag.value)
  {
    StripTakesBlanks(a, text, b);
    hide Strip, Blank, Trimmed, Contains;
  }

  // ---------- the declarative reading of the descriptor ----------

  // The first line at or after position i that opens a message.
  function FirstOpen(d: MsgDescriptor, lines: seq<string>, i: nat): (r: Option<nat>)
    requires i <= |lines|
    ensures r.Just? ==> i <= r.value < |lines| && Opens(d, lines[r.value])
    ensures forall k | i <= k < (if r.Just? then r.value else |lines|) :: !Opens(d, lines[k])
    decreases |lines| - i
  {
    if i == |lines| then Nothing
    else if Opens(d, lines[i]) then Just(i)
    else FirstOpen(d, lines, i + 1)
  }

  // The first line at or after position i that closes it; any line does when there is no close tag.
  function FirstClose(d: MsgDescriptor, lines: seq<string>, i: nat): (r: Option<nat>)
    requires i <= |lines|
    ensures r.Just? ==> i <= r.value < |lines| && Closes(d, lines[r.value])
    ensures forall k | i <= k < (if r.Just? then r.value else |lines|) :: !Closes(d, lines[k])
    decreases |lines| - i
  {
    if i == |lines| then Nothing
    else if Closes(d, lines[i]) then Just(i)
    else FirstClose(d, lines, i + 1)
  }

  // The first message at or after position i: from the opening line to the closing line, plus
  // lineCount - 1 further lines. The end is exclusive.
  function FirstMessage(d: MsgDescriptor, lines: seq<string>, i: nat): (r: Option<(nat, nat)>)
    requires i <= |lines|
    ensures r.Just? ==> i <= r.value.0 < r.value.1 <= |lines|
  {
    match FirstOpen(d, lines, i)
    case Nothing => Nothing
    case Just(open) =>
      match FirstClose(d, lines, open)
      case Nothing => Nothing
      case Just(close) =>
        var end := close + (if d.lineCount > 1 then d.lineCount else 1);
        if end <= |lines| then Just((open, end)) else Nothing
  }

  // All messages in a sequence of lines, each looked for after the end of the one before.
  function Messages(d: MsgDescriptor, lines: seq<string>, i: nat): seq<seq<string>>
    requires i <= |lines|
    decreases |lines| - i
  {
    match FirstMessage(d, lines, i)
    case Nothing => []
    case Just((open, end)) => [lines[open..end]] + Messages(d, lines, end)
  }

  // What is left at the end: the lines from an opening line on whose message is not complete.
  function Unfinished(d: MsgDescriptor, lines: seq<string>, i: nat): Option<seq<string>>
    requires i <= |lines|
    decreases |lines| - i
  {
    match FirstMessage(d, lines, i)
    case Just((_, end)) => Unfinished(d, lines, end)
    case Nothing =>
      match FirstOpen(d, lines, i)
      case Nothing => Nothing
      case Just(open) => Just(lines[open..])
  }

  // The buffers given to the parser while the lines from position i on arrive one by one, and the
  // storage at the end.
  function Captured(d: MsgDescriptor, m: Memory, lines: seq<string>, i: nat): (seq<seq<string>>, Memory)
    requires i <= |lines|
    decreases |lines| - i
  {
    if i == |lines| then ([], m)
    else
      var (m', out) := Step(d, m, lines[i]);
      Before(out, Captured(d, m', lines, i + 1))
  }

  function Before(out: Option<seq<string>>, rest: (seq<seq<string>>, Memory)): (seq<seq<string>>, Memory) {
    if out.Just? then ([out.value] + rest.0, rest.1) else rest
  }

  lemma {:induction false} IdleUntilOpen(d: MsgDescriptor, lines: seq<string>, i: nat)
    requires i <= |lines|
    ensures Captured(d, FRESH, lines, i) ==
            match FirstOpen(d, lines, i)
            case Nothing => ([], FRESH)
            case Just(open) => Captured(d, FRESH, lines, open)
    decreases |lines| - i
  {
    if i < |lines| && !Opens(d, lines[i]) {
      IdleUntilOpen(d, lines, i + 1);
    }
  }

  lemma {:induction false} BuffersUntilClose(d: MsgDescriptor, lines: seq<string>, open: nat, i: nat)
    requires open <= i <= |lines|
    ensures Captured(d, Memory(Just(lines[open..i]), d.lineCount, false), lines, i) ==
            match FirstClose(d, lines, i)
            case Nothing => ([], Memory(Just(lines[open..]), d.lineCount, false))
            case Just(close) => Captured(d, Memory(Just(lines[open..close]), d.lineCount, true), lines, close)
    decreases |lines| - i
  {
    if i < |lines| {
      assert lines[open..i] + [lines[i]] == lines[open..i + 1];
      hide Opens, Closes;
      if !Closes(d, lines[i]) {
        BuffersUntilClose(d, lines, open, i + 1);
      } else {
        assert Step(d, Memory(Just(lines[open..i]), d.lineCount, false), lines[i])
            == Step(d, Memory(Just(lines[open..i]), d.lineCount, true), lines[i]);
      }
    } else {
      assert lines[open..i] == lines[open..];
    }
  }

  lemma {:induction false} CountsDown(d: MsgDescriptor, lines: seq<string>, open: nat, i: nat, n: int)
    requires open <= i <= |lines|
    ensures var end := i + (if n > 1 then n else 1);
            Captured(d, Memory(Just(lines[open..i]), n, true), lines, i) ==
            if end <= |lines| then Before(Just(lines[open..end]), Captured(d, FRESH, lines, end))
            else ([], Memory(Just(lines[open..]), n - (|lines| - i), true))
    decreases |lines| - i
  {
    if i < |lines| {
      assert lines[open..i] + [lines[i]] == lines[open..i + 1];
      if n > 1 {
        CountsDown(d, lines, open, i + 1, n - 1);
      }
    } else {
      assert lines[open..i] == lines[open..];
    }
  }

  lemma OpensBuffer(d: MsgDescriptor, lines: seq<string>, open: nat)
    requires open < |lines| && Opens(d, lines[open])
    ensures Captured(d, FRESH, lines, open)
         == Captured(d, Memory(Just(lines[open..open]), d.lineCount, false), lines, open)
  {
    assert lines[open..open] == [];
    hide Opens, Closes;
  }

  // From an opening line on: the first message and everything after it, or nothing but the lines
  // of an unfinished message.
  lemma CapturesFirst(d: MsgDescriptor, lines: seq<string>, open: nat)
    requires open < |lines| && Opens(d, lines[open])
    ensures var all := Captured(d, FRESH, lines, open);
            var message := FirstMessage(d, lines, open);
            if message.Nothing? then all.0 == [] && all.1.buffer == Just(lines[open..])
            else all == Before(Just(lines[open..message.value.1]), Captured(d, FRESH, lines, message.value.1))
  {
    hide Captured, Opens, Closes;
    OpensBuffer(d, lines, open);
    assert FirstOpen(d, lines, open) == Just(open);
    BuffersUntilClose(d, lines, open, open);
    match FirstClose(d, lines, open) {
      case Nothing =>
      case Just(close) => CountsDown(d, lines, open, close, d.lineCount);
    }
  }

  // The automaton hands over exactly the messages of the line sequence, for every descriptor, and
  // keeps the unfinished one in the storage, which is otherwise as new.
  lemma {:induction false} CapturesMessages(d: MsgDescriptor, lines: seq<string>, i: nat)
    requires i <= |lines|
    ensures var all := Captured(d, FRESH, lines, i);
            && all.0 == Messages(d, lines, i)
            && all.1.buffer == Unfinished(d, lines, i)
            && (all.1.buffer.Nothing? ==> all.1 == FRESH)
    decreases |lines| - i
  {
    hide Captured, Opens, Closes, FirstClose;
    IdleUntilOpen(d, lines, i);
    match FirstOpen(d, lines, i) {
      case Nothing =>
      case Just(open) =>
        CapturesFirst(d, lines, open);
        match FirstMessage(d, lines, i) {
          case Nothing =>
          case Just((_, end)) => CapturesMessages(d, lines, end);
        }
    }
  }

  // One more line is one more step.
  lemma {:induction false} CapturedAndOne(d: MsgDescriptor, m: Memory, lines: seq<string>, line: string, i: nat)
    requires i <= |lines|
    ensures Captured(d, m, lines + [line], i).1 == Step(d, Captured(d, m, lines, i).1, line).0
    decreases |lines| - i
  {
    if i < |lines| {
      CapturedAndOne(d, Step(d, m, lines[i]).0, lines, line, i + 1);
    }
  }
}
