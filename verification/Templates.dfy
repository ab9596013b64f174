// Message templates and the parsers they are made of. A parser reads lines from a shared
// iterator; here the iterator is a position in the line buffer.
module Templates {
  import opened Text

  datatype Value = Word(text: string)
                 | Listing(path: string, files: seq<string>, dirs: seq<string>)
                 | Refusal(command: string, reason: string)

  type Fields = map<Option<string>, Value>

  datatype Parser = ValidateLine | ParseString | ParsePrompt | ParseLs | ParseCmdFailed | ParseBytes | ParseError

  // `expected` is "" in place of None; only the step of the ls parser has None, and ignores it.
  datatype ParseStep = ParseStep(expected: string, userKey: Option<string>, parser: Parser)

  datatype Template = Template(opcode: string, steps: seq<ParseStep>)

  datatype Message = Message(opcode: string, fields: Fields)

  // A parse ends with a value and the iterator's new position, with ParsingException, with
  // StopIteration, or with any other exception.
  datatype Outcome<+T> = Match(value: T, next: nat) | Mismatch | NeedMore | Crash

  function Put(f: Fields, key: Option<string>, v: Value, next: nat): Outcome<Fields> {
    Match(f[key := v], next)
  }

  // ---------- parsers of one line ----------

  function KeyAndValue(step: ParseStep, line: string, f: Fields, next: nat): Outcome<Fields> {
    match FindFrom(line, ":", 0)
    case Nothing => Mismatch
    case Just(i) =>
      var key, value := Strip(line[..i]), Strip(line[i + 1..]);
      if key != step.expected then Mismatch
      else Put(f, if step.userKey in {Nothing, Just("")} then Just(key) else step.userKey, Word(value), next)
  }

  const ESCAPE := "\U{1B}[K"

  function Prompt(step: ParseStep, line: string, f: Fields, next: nat): Outcome<Fields> {
    var parts := Split(Strip(line), ESCAPE);
    if |parts| < 2 then Crash
    else Put(f, step.userKey, Word(if parts[1] == "" then "No command" else parts[1]), next)
  }

  function CmdFailed(step: ParseStep, line: string, f: Fields, next: nat): Outcome<Fields> {
    var parts := Split(line, ": ");
    if |parts| < 4 then Crash else Put(f, step.userKey, Refusal(Strip(parts[1]), Strip(parts[3])), next)
  }

  function AfterSeparator(step: ParseStep, sep: string, prefix: string, line: string, f: Fields, next: nat)
    : Outcome<Fields>
    requires sep != ""
  {
    var parts := Split(line, sep);
    if |parts| < 2 then Crash else Put(f, step.userKey, Word(prefix + Strip(parts[1])), next)
  }

  // The parsers that take exactly one line.
  function ParseOneLine(step: ParseStep, line: string, f: Fields, next: nat): Outcome<Fields> {
    if step.parser.ParseString? then KeyAndValue(step, line, f, next)
    else if !Contains(line, step.expected) then Mismatch
    else
      match step.parser
      case ParsePrompt => Prompt(step, line, f, next)
      case ParseCmdFailed => CmdFailed(step, line, f, next)
      case ParseBytes => AfterSeparator(step, "B", "B", line, f, next)
      case ParseError => AfterSeparator(step, ":", "", line, f, next)
      case _ => Match(f, next)
  }

  // ---------- the directory listing ----------

  const PROMPT := "nsh>"

  function ListPath(line: string): string {
    var path := Strip(line);
    if path == "/:" then StripChar(path, ':') else ReplaceChar(path, ':', '/')
  }

  // Collects entries up to and including the line with the prompt. A prompt line with a slash in
  // it still counts as a directory.
  function ListEntries(lines: seq<string>, i: nat, dirs: seq<string>, files: seq<string>)
    : Outcome<(seq<string>, seq<string>)>
    requires i <= |lines|
    decreases |lines| - i
  {
    if i == |lines| then NeedMore
    else
      var line := lines[i];
      var last := Contains(line, PROMPT);
      var dirs' := if '/' in line then dirs + [StripChar(Strip(line), '/')] else dirs;
      var files' := if '/' in line || last then files else files + [Strip(line)];
      if last then Match((dirs', files'), i + 1) else ListEntries(lines, i + 1, dirs', files')
  }

  function ParseListing(step: ParseStep, lines: seq<string>, i: nat, f: Fields): Outcome<Fields>
    requires i < |lines|
  {
    if ':' !in lines[i] then Mismatch
    else
      match ListEntries(lines, i + 1, [], [])
      case Match((dirs, files), next) => Put(f, step.userKey, Listing(ListPath(lines[i]), files, dirs), next)
      case Mismatch => Mismatch
      case NeedMore => NeedMore
      case Crash => Crash
  }

  // ---------- templates ----------

  function RunStep(step: ParseStep, lines: seq<string>, i: nat, f: Fields): Outcome<Fields>
    requires i <= |lines|
  {
    if i == |lines| then NeedMore
    else if step.parser.ParseLs? then ParseListing(step, lines, i, f)
    else ParseOneLine(step, lines[i], f, i + 1)
  }

  lemma {:induction false} EntriesAdvance(lines: seq<string>, i: nat, dirs: seq<string>, files: seq<string>)
    requires i <= |lines|
    ensures var r := ListEntries(lines, i, dirs, files);
            !r.Mismatch? && !r.Crash? && (r.Match? ==> i < r.next <= |lines|)
    decreases |lines| - i
  {
    if i < |lines| {
      var line := lines[i];
      var dirs' := if '/' in line then dirs + [StripChar(Strip(line), '/')] else dirs;
      var files' := if '/' in line || Contains(line, PROMPT) then files else files + [Strip(line)];
      EntriesAdvance(lines, i + 1, dirs', files');
    }
  }

  // Every parser takes at least one line and stays inside the buffer.
  lemma StepAdvances(step: ParseStep, lines: seq<string>, i: nat, f: Fields)
    requires i <= |lines|
    ensures var r := RunStep(step, lines, i, f);
            r.Match? ==> i < r.next <= |lines|
  {
    if i < |lines| {
      EntriesAdvance(lines, i + 1, [], []);
    }
  }

  // The steps from number k on, reading from position i.
  function RunSteps(t: Template, k: nat, lines: seq<string>, i: nat, f: Fields): Outcome<Message>
    requires k <= |t.steps| && i <= |lines|
    decreases |t.steps| - k
  {
    if k == |t.steps| then Match(Message(t.opcode, f), i)
    else
      StepAdvances(t.steps[k], lines, i, f);
      match RunStep(t.steps[k], lines, i, f)
      case Match(f', next) => RunSteps(t, k + 1, lines, next, f')
      case Mismatch => Mismatch
      case NeedMore => NeedMore
      case Crash => Crash
  }

  lemma RunStepsNext(t: Template, k: nat, lines: seq<string>, i: nat, f: Fields)
    requires k < |t.steps| && i <= |lines|
    ensures var r := RunStep(t.steps[k], lines, i, f);
            && (r.Match? ==>
                  r.next <= |lines| && RunSteps(t, k, lines, i, f) == RunSteps(t, k + 1, lines, r.next, r.value))
            && (r.Mismatch? ==> RunSteps(t, k, lines, i, f) == Mismatch)
            && (r.NeedMore? ==> RunSteps(t, k, lines, i, f) == NeedMore)
            && (r.Crash? ==> RunSteps(t, k, lines, i, f) == Crash)
  {
    StepAdvances(t.steps[k], lines, i, f);
    hide RunStep;
  }

  lemma RunStepsEnd(t: Template, lines: seq<string>, i: nat, f: Fields)
    requires i <= |lines|
    ensures RunSteps(t, |t.steps|, lines, i, f) == Match(Message(t.opcode, f), i)
  {}

  // _parse
  function Parse(t: Template, lines: seq<string>): Outcome<Message> {
    RunSteps(t, 0, lines, 0, map[])
  }

  lemma {:induction false} StepsAdvance(t: Template, k: nat, lines: seq<string>, i: nat, f: Fields)
    requires k <= |t.steps| && i <= |lines|
    ensures var r := RunSteps(t, k, lines, i, f);
            r.Match? ==> i + |t.steps| - k <= r.next <= |lines|
    decreases |t.steps| - k
  {
    if k < |t.steps| {
      StepAdvances(t.steps[k], lines, i, f);
      var r := RunStep(t.steps[k], lines, i, f);
      if r.Match? {
        StepsAdvance(t, k + 1, lines, r.next, r.value);
      }
    }
  }

  // ---------- more lines only matter to a parse that asks for them ----------

  lemma {:induction false} EntriesStable(
    lines: seq<string>, more: seq<string>, i: nat, dirs: seq<string>, files: seq<string>)
    requires i <= |lines|
    ensures var r := ListEntries(lines, i, dirs, files);
            !r.NeedMore? ==> ListEntries(lines + more, i, dirs, files) == r
    decreases |lines| - i
  {
    if i < |lines| {
      var line := lines[i];
      var dirs' := if '/' in line then dirs + [StripChar(Strip(line), '/')] else dirs;
      var files' := if '/' in line || Contains(line, PROMPT) then files else files + [Strip(line)];
      EntriesStable(lines, more, i + 1, dirs', files');
    }
  }

  lemma StepStable(step: ParseStep, lines: seq<string>, more: seq<string>, i: nat, f: Fields)
    requires i <= |lines|
    ensures var r := RunStep(step, lines, i, f);
            !r.NeedMore? ==> RunStep(step, lines + more, i, f) == r
  {
    if i < |lines| {
      assert (lines + more)[i] == lines[i];
      EntriesStable(lines, more, i + 1, [], []);
    }
  }

  lemma {:induction false} StepsStable(t: Template, k: nat, lines: seq<string>, more: seq<string>, i: nat, f: Fields)
    requires k <= |t.steps| && i <= |lines|
    ensures var r := RunSteps(t, k, lines, i, f);
            !r.NeedMore? ==> RunSteps(t, k, lines + more, i, f) == r
    decreases |t.steps| - k
  {
    if k < |t.steps| {
      StepAdvances(t.steps[k], lines, i, f);
      StepStable(t.steps[k], lines, more, i, f);
      var r := RunStep(t.steps[k], lines, i, f);
      if r.Match? {
        StepsStable(t, k + 1, lines, more, r.next, r.value);
      }
    }
  }

  // A template that matched, mismatched or raised on the buffered lines does exactly the same,
  // with the same message and the same number of lines taken, when more lines are behind them.
  lemma ParseStable(t: Template, lines: seq<string>, more: seq<string>)
    ensures !Parse(t, lines).NeedMore? ==> Parse(t, lines + more) == Parse(t, lines)
  {
    StepsStable(t, 0, lines, more, 0, map[]);
  }
}
