// The template parsers as methods that pull lines from a shared iterator and fill a message object.
module TemplateParsing {
  import opened Text
  import opened Templates

  // How a parser ends: normally, with ParsingException, with StopIteration, or with another
  // exception.
  datatype Status = Ok | ParsingException | StopIteration | OtherException

  class LineIterator {
    const lines: seq<string>
    var pos: nat

    ghost predicate Valid()
      reads this
    {
      pos <= |lines|
    }

    constructor (lines: seq<string>)
      ensures this.lines == lines && pos == 0
    {
      this.lines := lines;
      pos := 0;
    }

    // next()
    method Next() returns (ok: bool, line: string)
      requires Valid()
      modifies this
      ensures Valid() && ok == (old(pos) < |lines|)
      ensures ok ==> line == lines[old(pos)] && pos == old(pos) + 1
    {
      ok, line := pos < |lines|, "";
      if ok {
        line := lines[pos];
        pos := pos + 1;
      }
    }
  }

  class MessageObject {
    var opcode: Option<string>
    var fields: Fields

    constructor ()
      ensures opcode == Nothing && fields == map[]
    {
      opcode := Nothing;
      fields := map[];
    }

    method SetValue(key: Option<string>, value: Value)
      modifies this
      ensures fields == old(fields)[key := value] && opcode == old(opcode)
    {
      fields := fields[key := value];
    }
  }

  // The status and the effects that a parse result of the specification stands for.
  ghost predicate Shows(st: Status, it: LineIterator, msg: MessageObject, r: Outcome<Fields>)
    reads it, msg
  {
    match r
    case Match(f, next) => st == Ok && it.pos == next && msg.fields == f
    case Mismatch => st == ParsingException
    case NeedMore => st == StopIteration
    case Crash => st == OtherException
  }

  method ParseStringLine(it: LineIterator, step: ParseStep, msg: MessageObject) returns (st: Status)
    requires it.Valid() && step.parser.ParseString?
    modifies it, msg
    ensures it.Valid() && msg.opcode == old(msg.opcode)
    ensures Shows(st, it, msg, RunStep(step, it.lines, old(it.pos), old(msg.fields)))
  {
    var ok, line := it.Next();
    if !ok {
      return StopIteration;
    }
    var separator := FindFrom(line, ":", 0);
    if separator.Nothing? {
      return ParsingException;
    }
    var key, value := Strip(line[..separator.value]), Strip(line[separator.value + 1..]);
    if key != step.expected {
      return ParsingException;
    }
    var named := step.userKey.Just? && step.userKey.value != "";
    msg.SetValue(if named then step.userKey else Just(key), Word(value));
    st := Ok;
  }

  // validate_line, parse_nsh_prompt, parse_cmd_failed, parse_bytes, parse_error, parse_app_error:
  // one line that must contain the key.
  method ParseKeyedLine(it: LineIterator, step: ParseStep, msg: MessageObject) returns (st: Status)
    requires it.Valid() && !step.parser.ParseString? && !step.parser.ParseLs?
    modifies it, msg
    ensures it.Valid() && msg.opcode == old(msg.opcode)
    ensures Shows(st, it, msg, RunStep(step, it.lines, old(it.pos), old(msg.fields)))
  {
    var ok, line := it.Next();
    if !ok {
      return StopIteration;
    }
    if !Contains(line, step.expected) {
      return ParsingException;
    }
    match step.parser {
      case ParsePrompt =>
        var parts := Split(Strip(line), ESCAPE);
        if |parts| < 2 {
          return OtherException;
        }
        msg.SetValue(step.userKey, Word(if parts[1] == "" then "No command" else parts[1]));
      case ParseCmdFailed =>
        var parts := Split(line, ": ");
        if |parts| < 4 {
          return OtherException;
        }
        msg.SetValue(step.userKey, Refusal(Strip(parts[1]), Strip(parts[3])));
      case ParseBytes =>
        var parts := Split(line, "B");
        if |parts| < 2 {
          return OtherException;
        }
        msg.SetValue(step.userKey, Word("B" + Strip(parts[1])));
      case ParseError =>
        var parts := Split(line, ":");
        if |parts| < 2 {
          return OtherException;
        }
        msg.SetValue(step.userKey, Word("" + Strip(parts[1])));
      case ValidateLine =>
    }
    st := Ok;
  }

  method ParseLsLines(it: LineIterator, step: ParseStep, msg: MessageObject) returns (st: Status)
    requires it.Valid() && step.parser.ParseLs?
    modifies it, msg
    ensures it.Valid() && msg.opcode == old(msg.opcode)
    ensures Shows(st, it, msg, RunStep(step, it.lines, old(it.pos), old(msg.fields)))
  {
    hide Strip, StripChar, Contains, ListPath;
    var ok, line := it.Next();
    if !ok {
      return StopIteration;
    }
    var path := ListPath(line);
    if ':' !in line {
      return ParsingException;
    }
    var dirs, files: seq<string> := [], [];
    while true
      invariant it.Valid() && it.pos > old(it.pos) && msg.fields == old(msg.fields) && msg.opcode == old(msg.opcode)
      invariant ListEntries(it.lines, it.pos, dirs, files) == ListEntries(it.lines, old(it.pos) + 1, [], [])
      decreases |it.lines| - it.pos
    {
      ok, line := it.Next();
      if !ok {
        return StopIteration;
      }
      var last := Contains(line, PROMPT);
      if '/' in line {
        dirs := dirs + [StripChar(Strip(line), '/')];
      } else if !last {
        files := files + [Strip(line)];
      }
      if last {
        break;
      }
    }
    msg.SetValue(step.userKey, Listing(path, files, dirs));
    st := Ok;
  }

  // MessageTemplate._parse
  method ParseTemplate(t: Template, it: LineIterator) returns (st: Status, msg: MessageObject)
    requires it.Valid() && it.pos == 0
    modifies it
    ensures it.Valid() && fresh(msg)
    ensures match Parse(t, it.lines)
            case Match(m, next) => st == Ok && it.pos == next && msg.opcode == Just(m.opcode) && msg.fields == m.fields
            case Mismatch => st == ParsingException
            case NeedMore => st == StopIteration
            case Crash => st == OtherException
  {
    hide RunStep, RunSteps;
    msg := new MessageObject();
    var k := 0;
    while k < |t.steps|
      invariant 0 <= k <= |t.steps| && it.Valid()
      invariant RunSteps(t, k, it.lines, it.pos, msg.fields) == Parse(t, it.lines)
    {
      var step := t.steps[k];
      RunStepsNext(t, k, it.lines, it.pos, msg.fields);
      match step.parser {
        case ParseLs => st := ParseLsLines(it, step, msg);
        case ParseString => st := ParseStringLine(it, step, msg);
        case _ => st := ParseKeyedLine(it, step, msg);
      }
      if st != Ok {
        return;
      }
      k := k + 1;
    }
    RunStepsEnd(t, it.lines, it.pos, msg.fields);
    msg.opcode := Just(t.opcode);
    st := Ok;
  }
}
