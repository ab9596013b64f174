// The templates of the NuttShell device, in priority order.
module NuttShell {
  import opened Text
  import opened Templates
  import opened MessageDevices

  function Single(opcode: string, expected: string, key: Option<string>, parser: Parser): Template {
    Template(opcode, [ParseStep(expected, key, parser)])
  }

  function NuttShellTemplates(): (ts: seq<Template>)
  {
    [ Template("NSH_LS", [ParseStep("ls", Nothing, ValidateLine), ParseStep("", Just("ls"), ParseLs)]),
      Single("NUTTSHELL", "NuttShell (NSH)", Nothing, ValidateLine),
      Single("NSH_PROMPT", "nsh>", Just("Command"), ParsePrompt),
      Single("CMD_FAILED", "failed", Just("Execution failed"), ParseCmdFailed),
      Single("BYTES", "**", Just("Value"), ParseBytes),
      Single("APP_ERROR", "ERROR:", Just("Error"), ParseError),
      Single("APP_ERROR", "Error:", Just("Error"), ParseError) ]
  }

  lemma TemplatesWellFormed()
    ensures WellFormed(NuttShellTemplates())
  {}

  // A listing is incomplete exactly as long as no line contains the prompt.
  lemma {:induction false} EntriesWaitIff(lines: seq<string>, i: nat, dirs: seq<string>, files: seq<string>)
    requires i <= |lines|
    ensures ListEntries(lines, i, dirs, files).NeedMore? <==> forall k | i <= k < |lines| :: !Contains(lines[k], "nsh>")
    decreases |lines| - i
  {
    hide Contains;
    if i < |lines| && !Contains(lines[i], PROMPT) {
      var line := lines[i];
      var dirs' := if '/' in line then dirs + [StripChar(Strip(line), '/')] else dirs;
      var files' := if '/' in line then files else files + [Strip(line)];
      EntriesWaitIff(lines, i + 1, dirs', files');
    }
  }

  // A template with one step that reads one line.
  predicate OneLine(t: Template) {
    |t.steps| == 1 && !t.steps[0].parser.ParseLs?
  }

  lemma OneLineDecides(t: Template, lines: seq<string>)
    requires OneLine(t) && lines != []
    ensures !Parse(t, lines).NeedMore?
  {
    hide ParseOneLine;
    assert !RunStep(t.steps[0], lines, 0, map[]).NeedMore? by {
      OneLineAnswers(t.steps[0], lines[0]);
    }
    StepAdvances(t.steps[0], lines, 0, map[]);
    var r := RunStep(t.steps[0], lines, 0, map[]);
    if r.Match? {
      assert RunSteps(t, 1, lines, r.next, r.value).Match?;
    }
  }

  lemma OneLineAnswers(step: ParseStep, line: string)
    ensures !ParseOneLine(step, line, map[], 1).NeedMore?
  {
    hide Contains, Split, Strip;
  }

  lemma {:induction false} OneLinersDecide(ts: seq<Template>, k: nat, lines: seq<string>)
    requires WellFormed(ts) && k <= |ts| && lines != [] && forall i | k <= i < |ts| :: OneLine(ts[i])
    ensures !Decide(ts, k, lines).Wait?
    decreases |ts| - k
  {
    hide Parse;
    if k < |ts| {
      OneLineDecides(ts[k], lines);
      OneLinersDecide(ts, k + 1, lines);
    }
  }

  // When this device keeps back what it has got: the template for ls comes first and only looks
  // for the letters, so a line that contains "ls" anywhere waits for the next line, and if that
  // line has a colon, everything waits for a prompt.
  lemma HeldBackIff(lines: seq<string>)
    requires lines != []
    ensures WellFormed(NuttShellTemplates())
    ensures Decide(NuttShellTemplates(), 0, lines).Wait? <==>
            && Contains(lines[0], "ls")
            && (|lines| == 1 || (':' in lines[1] && forall k | 2 <= k < |lines| :: !Contains(lines[k], "nsh>")))
  {
    hide Parse, Contains, NuttShellTemplates, OneLine;
    TemplatesWellFormed();
    OthersReadOneLine();
    OneLinersDecide(NuttShellTemplates(), 1, lines);
    ListingWaitsIff(lines);
  }

  lemma OthersReadOneLine()
    ensures |NuttShellTemplates()| > 1 && forall i | 1 <= i < |NuttShellTemplates()| :: OneLine(NuttShellTemplates()[i])
  {}

  lemma ListingWaitsIff(lines: seq<string>)
    requires lines != []
    ensures Parse(NuttShellTemplates()[0], lines).NeedMore? <==>
            && Contains(lines[0], "ls")
            && (|lines| == 1 || (':' in lines[1] && forall k | 2 <= k < |lines| :: !Contains(lines[k], "nsh>")))
  {
    hide Contains, ListEntries;
    var t := NuttShellTemplates()[0];
    if Contains(lines[0], "ls") {
      assert RunStep(t.steps[0], lines, 0, map[]) == Match(map[], 1);
      if |lines| > 1 {
        EntriesWaitIff(lines, 2, [], []);
        StepAdvances(t.steps[1], lines, 1, map[]);
      }
    }
  }

  // The streaming theorem for this device.
  lemma NuttShellStreamingIsBatch(port: seq<string>, n: nat)
    ensures WellFormed(NuttShellTemplates())
    ensures var ts := NuttShellTemplates();
            var s := ReadMany(ts, [], port, n);
            |s.port| <= |port| && Tokens(ts, Received(port, s.port)) == s.chunks + Tokens(ts, s.lines)
  {
    hide Tokens, Received, NuttShellTemplates;
    TemplatesWellFormed();
    StreamingIsBatch(NuttShellTemplates(), [], port, n);
    var left := ReadMany(NuttShellTemplates(), [], port, n).port;
    assert [] + Received(port, left) == Received(port, left);
  }
}
