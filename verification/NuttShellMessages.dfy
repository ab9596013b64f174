// What the messages of the NuttShell device hold: what was printed on the console.
module NuttShellMessages {
  import opened Text
  import opened Templates
  import opened NuttShell

  // ---------- directory listings ----------

  // A line of a listing: a name between blanks, with a slash behind it for a directory.
  datatype Name = Name(text: string, isDir: bool, before: string, after: string)

  function LineOf(n: Name): string {
    n.before + (n.text + if n.isDir then "/" else "") + n.after
  }

  predicate Printed(n: Name) {
    Blank(n.before) && Blank(n.after) && Trimmed(n.text) && '/' !in n.text
  }

  // The names are those up to the first line with the prompt.
  predicate Printable(n: Name) {
    Printed(n) && !Contains(LineOf(n), "nsh>")
  }

  // The line with the prompt ends the listing; with a slash at its end it counts as a directory.
  predicate IsPrompt(n: Name) {
    Printed(n) && Contains(LineOf(n), "nsh>")
  }

  function Directories(names: seq<Name>, prompt: Name): seq<string> {
    Texts(names, true) + if prompt.isDir then [prompt.text] else []
  }

  function Lines(names: seq<Name>): seq<string> {
    seq(|names|, i requires 0 <= i < |names| => LineOf(names[i]))
  }

  // The names of the directories, or of the files, in the order printed.
  function Texts(names: seq<Name>, isDir: bool): seq<string> {
    if names == [] then []
    else (if names[0].isDir == isDir then [names[0].text] else []) + Texts(names[1..], isDir)
  }

  lemma BlanksHaveNoSlash(b: string)
    requires Blank(b)
    ensures '/' !in b && ':' !in b
  {}

  // A directory line gives the name, and so does a file line.
  lemma NameIsRead(n: Name)
    requires Printed(n)
    ensures n.isDir <==> '/' in LineOf(n)
    ensures if n.isDir then StripChar(Strip(LineOf(n)), '/') == n.text else Strip(LineOf(n)) == n.text
  {
    BlanksHaveNoSlash(n.before);
    BlanksHaveNoSlash(n.after);
    var t := n.text + if n.isDir then "/" else "";
    if n.isDir {
      assert t[|t| - 1] == '/' && t[0] == (if n.text == [] then '/' else n.text[0]);
      assert Trimmed(t);
      assert [] + n.text + "/" == t && [] + "/" == "/";
      TrimBothDrops([], n.text, "/", Only('/'));
    } else {
      assert t == n.text;
    }
    StripTakesBlanks(n.before, t, n.after);
  }

  // The lines from position i on are the listing.
  predicate Shows(lines: seq<string>, i: nat, names: seq<Name>, prompt: Name) {
    && i + |names| < |lines| && lines[i + |names|] == LineOf(prompt)
    && forall k | 0 <= k < |names| :: lines[i + k] == LineOf(names[k])
  }

  lemma OneName(lines: seq<string>, i: nat, n: Name, dirs: seq<string>, files: seq<string>)
    requires i < |lines| && lines[i] == LineOf(n) && Printable(n)
    ensures ListEntries(lines, i, dirs, files) ==
            if n.isDir then ListEntries(lines, i + 1, dirs + [n.text], files)
            else ListEntries(lines, i + 1, dirs, files + [n.text])
  {
    NameIsRead(n);
    hide Contains, Strip, StripChar, LineOf;
  }

  lemma LastName(lines: seq<string>, i: nat, prompt: Name, dirs: seq<string>, files: seq<string>)
    requires i < |lines| && lines[i] == LineOf(prompt) && IsPrompt(prompt)
    ensures ListEntries(lines, i, dirs, files) ==
            Match((if prompt.isDir then dirs + [prompt.text] else dirs, files), i + 1)
  {
    NameIsRead(prompt);
    hide Contains, Strip, StripChar, LineOf;
  }

  lemma {:induction false} NamesAreRead(
    lines: seq<string>, i: nat, names: seq<Name>, prompt: Name, dirs: seq<string>, files: seq<string>)
    requires Shows(lines, i, names, prompt) && (forall n | n in names :: Printable(n)) && IsPrompt(prompt)
    ensures ListEntries(lines, i, dirs, files) ==
            Match((dirs + Directories(names, prompt), files + Texts(names, false)), i + |names| + 1)
    decreases |names|
  {
    hide ListEntries, LineOf, Printable, IsPrompt, Shows, Directories, Texts;
    if names == [] {
      ShowsPrompt(lines, i, prompt);
      LastName(lines, i, prompt, dirs, files);
      NoMoreNames(prompt, dirs, files);
    } else {
      var n, rest := names[0], names[1..];
      assert n in names && forall m | m in rest :: m in names;
      ShowsNext(lines, i, names, prompt);
      OneName(lines, i, n, dirs, files);
      MoreNames(names, prompt, dirs, files);
      if n.isDir {
        NamesAreRead(lines, i + 1, rest, prompt, dirs + [n.text], files);
      } else {
        NamesAreRead(lines, i + 1, rest, prompt, dirs, files + [n.text]);
      }
    }
  }

  lemma ShowsPrompt(lines: seq<string>, i: nat, prompt: Name)
    requires Shows(lines, i, [], prompt)
    ensures i < |lines| && lines[i] == LineOf(prompt)
  {
    hide LineOf;
  }

  lemma ShowsNext(lines: seq<string>, i: nat, names: seq<Name>, prompt: Name)
    requires Shows(lines, i, names, prompt) && names != []
    ensures i < |lines| && lines[i] == LineOf(names[0]) && Shows(lines, i + 1, names[1..], prompt)
  {
    hide LineOf;
    assert lines[i + 0] == LineOf(names[0]);
    forall k | 0 <= k < |names[1..]|
      ensures lines[i + 1 + k] == LineOf(names[1..][k])
    {
      assert lines[i + (k + 1)] == LineOf(names[k + 1]);
    }
  }

  lemma NoMoreNames(prompt: Name, dirs: seq<string>, files: seq<string>)
    ensures dirs + Directories([], prompt) == if prompt.isDir then dirs + [prompt.text] else dirs
    ensures files + Texts([], false) == files
  {}

  lemma MoreNames(names: seq<Name>, prompt: Name, dirs: seq<string>, files: seq<string>)
    requires names != []
    ensures var n, rest := names[0], names[1..];
            && dirs + Directories(names, prompt)
                 == (if n.isDir then dirs + [n.text] else dirs) + Directories(rest, prompt)
            && files + Texts(names, false) == (if n.isDir then files else files + [n.text]) + Texts(rest, false)
  {
    var n, rest := names[0], names[1..];
    assert [] + Texts(rest, !n.isDir) == Texts(rest, !n.isDir);
    ConcatAssoc([n.text], Texts(rest, true), if prompt.isDir then [prompt.text] else []);
    ConcatAssoc(dirs, [n.text], Directories(rest, prompt));
    ConcatAssoc(files, [n.text], Texts(rest, false));
  }

  lemma PathIsRead(path: string, before: string, after: string)
    requires Blank(before) && Blank(after) && Trimmed(path) && ':' !in path
    ensures ':' in before + (path + ":") + after
    ensures ListPath(before + (path + ":") + after) == if path == "/" then "/" else path + "/"
  {
    var t := path + ":";
    BlanksHaveNoSlash(before);
    assert ':' in before + t + after by {
      assert (before + t + after)[|before| + |path|] == ':';
    }
    assert t[|t| - 1] == ':' && t[0] == if path == [] then ':' else path[0];
    StripTakesBlanks(before, t, after);
    hide Blank, Trimmed, Strip;
    PathOf(path);
  }

  lemma PathOf(path: string)
    requires ':' !in path
    ensures (if path + ":" == "/:" then StripChar(path + ":", ':') else ReplaceChar(path + ":", ':', '/'))
            == if path == "/" then "/" else path + "/"
  {
    var t := path + ":";
    if path == "/" {
      assert [] + "/" + ":" == "/:" && [] + ":" == ":";
      TrimBothDrops([], "/", ":", Only(':'));
    } else {
      assert t != "/:" by {
        assert t[..|t| - 1] == path && "/:"[..1] == "/";
      }
      assert ReplaceChar(t, ':', '/') == path + "/";
    }
  }

  // What `ls` printed is what the message says: the path with a slash behind it, the files and the
  // directories in the order printed, whatever blanks surround them and whatever follows.
  lemma ListingIsRead(command: string, path: string, before: string, after: string, names: seq<Name>, prompt: Name,
                      more: seq<string>)
    requires Contains(command, "ls") && Trimmed(path) && ':' !in path && Blank(before) && Blank(after)
    requires (forall n | n in names :: Printable(n)) && IsPrompt(prompt)
    ensures Parse(NuttShellTemplates()[0],
                  [command, before + path + ":" + after] + Lines(names) + [LineOf(prompt)] + more) ==
            Match(Message("NSH_LS", map[Just("ls") := Listing(if path == "/" then "/" else path + "/",
                                                              Texts(names, false), Directories(names, prompt))]),
                  |names| + 3)
  {
    hide Contains, Lines, Texts, Parse, NuttShellTemplates, Blank, Trimmed, Directories, LineOf, Shows, ListEntries;
    var head := before + (path + ":") + after;
    assert head == before + path + ":" + after;
    var front := [command, head];
    var lines := front + Lines(names) + [LineOf(prompt)] + more;
    ListingShows(front, names, prompt, more);
    NamesAreRead(lines, 2, names, prompt, [], []);
    assert [] + Directories(names, prompt) == Directories(names, prompt);
    assert [] + Texts(names, false) == Texts(names, false);
    PathIsRead(path, before, after);
    ListingParses(lines, Directories(names, prompt), Texts(names, false), |names| + 3);
  }

  lemma ListingShows(front: seq<string>, names: seq<Name>, prompt: Name, more: seq<string>)
    ensures Shows(front + Lines(names) + [LineOf(prompt)] + more, |front|, names, prompt)
  {
    hide LineOf;
  }

  lemma ListingParses(lines: seq<string>, dirs: seq<string>, files: seq<string>, next: nat)
    requires |lines| >= 2 && Contains(lines[0], "ls") && ':' in lines[1]
    requires ListEntries(lines, 2, [], []) == Match((dirs, files), next)
    ensures Parse(NuttShellTemplates()[0], lines) ==
            Match(Message("NSH_LS", map[Just("ls") := Listing(ListPath(lines[1]), files, dirs)]), next)
  {
    hide Contains, ListEntries, ListPath;
    var t := NuttShellTemplates()[0];
    RunStepsNext(t, 0, lines, 0, map[]);
    assert RunStep(t.steps[0], lines, 0, map[]) == Match(map[], 1);
    RunStepsNext(t, 1, lines, 1, map[]);
    StepAdvances(t.steps[1], lines, 1, map[]);
    RunStepsEnd(t, lines, next, map[Just("ls") := Listing(ListPath(lines[1]), files, dirs)]);
  }

  // ---------- messages of one line ----------

  // A line with the key that its parser can read is one message; a line without the key is none.
  lemma OneLineMessage(t: Template, line: string, more: seq<string>)
    requires |t.steps| == 1 && !t.steps[0].parser.ParseLs?
    ensures var r := ParseOneLine(t.steps[0], line, map[], 1);
            Parse(t, [line] + more) ==
              match r
              case Match(f, _) => Match(Message(t.opcode, f), r.next)
              case Mismatch => Mismatch
              case NeedMore => NeedMore
              case Crash => Crash
  {
    hide ParseOneLine;
    var lines := [line] + more;
    StepAdvances(t.steps[0], lines, 0, map[]);
    RunStepsNext(t, 0, lines, 0, map[]);
    var r := RunStep(t.steps[0], lines, 0, map[]);
    assert r == ParseOneLine(t.steps[0], lines[0], map[], 1);
    if r.Match? {
      RunStepsEnd(t, lines, r.next, r.value);
    }
  }

  // The keys that lines are recognised by.
  function Keys(): seq<string> {
    ["ls", "NuttShell (NSH)", "nsh>", "failed", "**", "ERROR:", "Error:"]
  }

  // A template of this device passes over exactly the buffers whose oldest line lacks its key; only
  // for a listing it also looks at the next line, for a colon.
  lemma MismatchIffKeyMissing(k: nat, line: string, more: seq<string>)
    requires k < 7
    ensures k > 0 ==> (Parse(NuttShellTemplates()[k], [line] + more).Mismatch? <==> !Contains(line, Keys()[k]))
    ensures Parse(NuttShellTemplates()[0], [line] + more).Mismatch? <==>
              !Contains(line, "ls") || (more != [] && ':' !in more[0])
  {
    hide Contains, Split, Strip;
    if k > 0 {
      OneLineMessage(NuttShellTemplates()[k], line, more);
    }
    ListingMismatch(line, more);
  }

  lemma ListingMismatch(line: string, more: seq<string>)
    ensures Parse(NuttShellTemplates()[0], [line] + more).Mismatch? <==>
              !Contains(line, "ls") || (more != [] && ':' !in more[0])
  {
    hide Contains, ListEntries;
    var t, lines := NuttShellTemplates()[0], [line] + more;
    RunStepsNext(t, 0, lines, 0, map[]);
    if Contains(line, "ls") {
      assert RunStep(t.steps[0], lines, 0, map[]) == Match(map[], 1);
      RunStepsNext(t, 1, lines, 1, map[]);
      if more != [] {
        assert lines[1] == more[0];
        EntriesAdvance(lines, 2, [], []);
        var r := RunStep(t.steps[1], lines, 1, map[]);
        if r.Match? {
          RunStepsEnd(t, lines, r.next, r.value);
        }
      }
    }
  }

  // A line with the key raises exactly when its parser does not find the separators it asks for.
  lemma PromptRaisesIff(line: string, more: seq<string>)
    ensures Parse(NuttShellTemplates()[2], [line] + more).Crash? <==>
              Contains(line, "nsh>") && !Contains(line, "\U{1B}[K")
  {
    StripKeeps(line, "\U{1B}[K");
    hide Contains, Strip, Split;
    SplitOnce(Strip(line), "\U{1B}[K");
    OneLineMessage(NuttShellTemplates()[2], line, more);
  }

  lemma RefusalRaisesIff(line: string, more: seq<string>)
    ensures Parse(NuttShellTemplates()[3], [line] + more).Crash? <==>
              Contains(line, "failed") && |Split(line, ": ")| < 4
  {
    hide Contains, Strip, Split;
    OneLineMessage(NuttShellTemplates()[3], line, more);
  }

  lemma BytesRaiseIff(line: string, more: seq<string>)
    ensures Parse(NuttShellTemplates()[4], [line] + more).Crash? <==> Contains(line, "**") && !Contains(line, "B")
  {
    hide Contains, Strip, Split;
    SplitOnce(line, "B");
    OneLineMessage(NuttShellTemplates()[4], line, more);
  }

  lemma ErrorNeverRaises(k: nat, line: string, more: seq<string>)
    requires 5 <= k <= 6
    ensures !Parse(NuttShellTemplates()[k], [line] + more).Crash?
  {
    var word := if k == 5 then "ERROR" else "Error";
    ContainsPart(line, word, ":", "");
    assert word + ":" + "" == if k == 5 then "ERROR:" else "Error:";
    hide Contains, Strip, Split;
    SplitOnce(line, ":");
    OneLineMessage(NuttShellTemplates()[k], line, more);
  }

  lemma ContainsPart(s: string, a: string, part: string, b: string)
    ensures Contains(s, a + part + b) ==> Contains(s, part)
  {
    var whole := a + part + b;
    if Contains(s, whole) {
      var i :| 0 <= i <= |s| && OccursAt(s, whole, i);
      forall k | 0 <= k < |part|
        ensures s[i + |a| + k] == part[k]
      {
        assert s[i..i + |whole|][|a| + k] == whole[|a| + k];
      }
      assert s[i + |a|..i + |a| + |part|] == part;
      assert OccursAt(s, part, i + |a|);
    }
  }

  // A text without blanks at its ends is not touched by strip().
  lemma StripKeeps(line: string, part: string)
    requires part != "" && Trimmed(part)
    ensures Contains(Strip(line), part) <==> Contains(line, part)
  {
    StripIs(line);
    var t := Strip(line);
    var a, b :| BetweenBlanks(line, a, t, b);
    hide Strip, Blank, Trimmed;
    PartStays(a, t, b, part);
    if Contains(line, part) {
      var i :| 0 <= i <= |line| && OccursAt(line, part, i);
      PartInside(a, t, b, part, i);
    }
  }

  lemma PartInside(a: string, t: string, b: string, part: string, i: nat)
    requires Blank(a) && Blank(b) && part != "" && Trimmed(part) && OccursAt(a + t + b, part, i)
    ensures |a| <= i && OccursAt(t, part, i - |a|)
  {
    var line := a + t + b;
    EndsOfPart(line, part, i);
    BlankEnds(a, t, b, i);
    BlankEnds(a, t, b, i + |part| - 1);
    assert t[i - |a|..i - |a| + |part|] == line[i..i + |part|];
  }

  lemma BlankEnds(a: string, t: string, b: string, k: nat)
    requires Blank(a) && Blank(b) && k < |a + t + b| && !IsSpace((a + t + b)[k])
    ensures |a| <= k < |a| + |t|
  {
    hide IsSpace;
    var c := (a + t + b)[k];
    assert if k < |a| then c in a else if k < |a| + |t| then c in t else c in b;
  }

  lemma EndsOfPart(line: string, part: string, i: nat)
    requires part != "" && OccursAt(line, part, i)
    ensures line[i] == part[0] && line[i + |part| - 1] == part[|part| - 1]
  {
    assert line[i..i + |part|][0] == line[i] && line[i..i + |part|][|part| - 1] == line[i + |part| - 1];
  }

  lemma PartStays(a: string, t: string, b: string, part: string)
    ensures Contains(t, part) ==> Contains(a + t + b, part)
  {
    if Contains(t, part) {
      var i :| 0 <= i <= |t| && OccursAt(t, part, i);
      assert (a + t + b)[|a| + i..|a| + i + |part|] == t[i..i + |part|];
      assert OccursAt(a + t + b, part, |a| + i);
    }
  }

  lemma BannerIsRead(line: string, more: seq<string>)
    requires Contains(line, "NuttShell (NSH)")
    ensures Parse(NuttShellTemplates()[1], [line] + more) == Match(Message("NUTTSHELL", map[]), 1)
  {
    hide Contains;
    OneLineMessage(NuttShellTemplates()[1], line, more);
  }

  // The prompt: the command is what follows the erase sequence, without the blanks around the line.
  lemma CommandIsRead(before: string, head: string, command: string, after: string, more: seq<string>)
    requires Blank(before) && Blank(after) && '\U{1B}' !in head + command && Trimmed(head + "\U{1B}[K" + command)
    requires Contains(before + (head + "\U{1B}[K" + command) + after, "nsh>")
    ensures Parse(NuttShellTemplates()[2], [before + (head + "\U{1B}[K" + command) + after] + more) ==
            Match(Message("NSH_PROMPT", map[Just("Command") := Word(if command == "" then "No command" else command)]),
                  1)
  {
    hide Contains, Strip, Split, Blank, Trimmed;
    var text := head + "\U{1B}[K" + command;
    var line := before + text + after;
    OneLineMessage(NuttShellTemplates()[2], line, more);
    StripTakesBlanks(before, text, after);
    assert forall c | c in head :: c in head + command;
    assert forall c | c in command :: c in head + command;
    SplitAtFirst(head, "\U{1B}[K", command);
    SplitNowhere(command, "\U{1B}[K");
  }

  // A refused command: the second and the fourth of the texts between the separators.
  lemma RefusalIsRead(line: string, first: string, command: string, third: string, reason: string, rest: string,
                      blanks: seq<string>, more: seq<string>)
    requires |blanks| == 4 && forall b | b in blanks :: Blank(b)
    requires Trimmed(command) && Trimmed(reason) && ':' !in first + command + third + reason
    requires line == first + ": " + (blanks[0] + command + blanks[1]) + ": " + third + ": "
                     + (blanks[2] + reason + blanks[3]) + rest
    requires (rest == "" || ": " <= rest) && Contains(line, "failed")
    ensures Parse(NuttShellTemplates()[3], [line] + more) ==
            Match(Message("CMD_FAILED", map[Just("Execution failed") := Refusal(command, reason)]), 1)
  {
    hide Contains, Strip, Split, Trimmed;
    var second, fourth := blanks[0] + command + blanks[1], blanks[2] + reason + blanks[3];
    BlanksHaveNoSlash(blanks[0]);
    BlanksHaveNoSlash(blanks[1]);
    BlanksHaveNoSlash(blanks[2]);
    BlanksHaveNoSlash(blanks[3]);
    NoColons(first, command, third, reason);
    hide Blank;
    OneLineMessage(NuttShellTemplates()[3], line, more);
    var l1 := third + ": " + (fourth + rest);
    var l2 := second + ": " + l1;
    assert line == first + ": " + l2;
    SplitAtFirst(first, ": ", l2);
    SplitAtFirst(second, ": ", l1);
    SplitAtFirst(third, ": ", fourth + rest);
    FirstPart(fourth, ": ", rest);
    var parts := Split(line, ": ");
    assert parts == [first] + ([second] + ([third] + Split(fourth + rest, ": ")));
    assert parts[1] == second && parts[3] == fourth;
    StripTakesBlanks(blanks[0], command, blanks[1]);
    StripTakesBlanks(blanks[2], reason, blanks[3]);
  }

  lemma NoColons(a: string, b: string, c: string, d: string)
    requires ':' !in a + b + c + d
    ensures ':' !in a && ':' !in b && ':' !in c && ':' !in d
  {
    assert a + b + c + d == a + (b + (c + d));
  }

  // The text up to the next separator, or to the end.
  lemma FirstPart(head: string, sep: string, rest: string)
    requires sep != "" && sep[0] !in head && (rest == "" || sep <= rest)
    ensures Split(head + rest, sep)[0] == head
  {
    if rest == "" {
      assert head + rest == head;
      SplitNowhere(head, sep);
    } else {
      assert rest == sep + rest[|sep|..];
      assert head + rest == head + sep + rest[|sep|..];
      SplitAtFirst(head, sep, rest[|sep|..]);
    }
  }

  // The value behind the first separator, up to the next one, without the blanks around it.
  lemma ValueIsRead(head: string, sep: string, before: string, value: string, after: string, rest: string)
    requires sep != "" && Blank(before) && Blank(after) && Trimmed(value)
    requires sep[0] !in head + before + value + after && (rest == "" || sep <= rest)
    ensures var parts := Split(head + sep + (before + value + after) + rest, sep);
            |parts| >= 2 && Strip(parts[1]) == value
  {
    hide Strip, Split, Blank, Trimmed;
    var text := before + value + after;
    assert head + before + value + after == head + text;
    assert forall c | c in head :: c in head + text;
    assert forall c | c in text :: c in head + text;
    assert head + sep + text + rest == head + sep + (text + rest);
    SplitAtFirst(head, sep, text + rest);
    FirstPart(text, sep, rest);
    StripTakesBlanks(before, value, after);
  }

  lemma BytesAreRead(head: string, before: string, value: string, after: string, rest: string, more: seq<string>)
    requires Blank(before) && Blank(after) && Trimmed(value) && 'B' !in head + before + value + after
    requires rest == "" || "B" <= rest
    requires Contains(head + "B" + (before + value + after) + rest, "**")
    ensures Parse(NuttShellTemplates()[4], [head + "B" + (before + value + after) + rest] + more) ==
            Match(Message("BYTES", map[Just("Value") := Word("B" + value)]), 1)
  {
    hide Contains, Strip, Split, Blank, Trimmed;
    OneLineMessage(NuttShellTemplates()[4], head + "B" + (before + value + after) + rest, more);
    ValueIsRead(head, "B", before, value, after, rest);
  }

  // Both spellings of an application error.
  lemma ErrorIsRead(k: nat, head: string, before: string, value: string, after: string, rest: string, more: seq<string>)
    requires 5 <= k <= 6 && Blank(before) && Blank(after) && Trimmed(value)
    requires ':' !in head + before + value + after && (rest == "" || ":" <= rest)
    requires Contains(head + ":" + (before + value + after) + rest, if k == 5 then "ERROR:" else "Error:")
    ensures Parse(NuttShellTemplates()[k], [head + ":" + (before + value + after) + rest] + more) ==
            Match(Message("APP_ERROR", map[Just("Error") := Word(value)]), 1)
  {
    hide Contains, Strip, Split, Blank, Trimmed;
    OneLineMessage(NuttShellTemplates()[k], head + ":" + (before + value + after) + rest, more);
    ValueIsRead(head, ":", before, value, after, rest);
    assert "" + value == value;
  }

  // ---------- key and value ----------

  // A line `key: value` is recognised by its key; the value, which may contain colons, is stored
  // under the name given for it, or else under the key.
  lemma KeyAndValueAreRead(opcode: string, expected: string, userKey: Option<string>,
                           blanks: seq<string>, key: string, value: string, more: seq<string>)
    requires |blanks| == 4 && forall b | b in blanks :: Blank(b)
    requires Trimmed(key) && Trimmed(value) && ':' !in key
    ensures var t := Template(opcode, [ParseStep(expected, userKey, ParseString)]);
            var line := (blanks[0] + key + blanks[1]) + ":" + (blanks[2] + value + blanks[3]);
            var name := if userKey.Just? && userKey.value != "" then userKey else Just(key);
            Parse(t, [line] + more) ==
              if key != expected then Mismatch else Match(Message(opcode, map[name := Word(value)]), 1)
  {
    hide Strip, Trimmed;
    var t := Template(opcode, [ParseStep(expected, userKey, ParseString)]);
    var left, right := blanks[0] + key + blanks[1], blanks[2] + value + blanks[3];
    var line := left + ":" + right;
    BlanksHaveNoSlash(blanks[0]);
    BlanksHaveNoSlash(blanks[1]);
    StripTakesBlanks(blanks[0], key, blanks[1]);
    StripTakesBlanks(blanks[2], value, blanks[3]);
    FirstColon(left, right);
    hide Blank, FindFrom;
    OneLineMessage(t, line, more);
  }

  lemma FirstColon(left: string, right: string)
    requires ':' !in left
    ensures var line := left + ":" + right;
            FindFrom(line, ":", 0) == Just(|left|) && line[..|left|] == left && line[|left| + 1..] == right
  {
    var line := left + ":" + right;
    assert OccursAt(line, ":", |left|);
    forall k: nat | k < |left|
      ensures !OccursAt(line, ":", k)
    {
      OccurrenceStarts(line, ":", k);
      assert line[k] == left[k];
    }
  }

  // A line without a colon is no such message.
  lemma NoColonNoValue(opcode: string, expected: string, userKey: Option<string>, line: string, more: seq<string>)
    requires ':' !in line
    ensures Parse(Template(opcode, [ParseStep(expected, userKey, ParseString)]), [line] + more).Mismatch?
  {
    forall k: nat | k <= |line|
      ensures !OccursAt(line, ":", k)
    {
      OccurrenceStarts(line, ":", k);
    }
    OneLineMessage(Template(opcode, [ParseStep(expected, userKey, ParseString)]), line, more);
  }
}
