// Python string operations used by the parsers, on sequences of characters.
module Text {

  datatype Option<+T> = Nothing | Just(value: T)

  // `needle in hay`
  predicate Contains(hay: string, needle: string) {
    exists i | 0 <= i <= |hay| :: OccursAt(hay, needle, i)
  }

  predicate OccursAt(hay: string, needle: string, i: nat) {
    i + |needle| <= |hay| && hay[i..i + |needle|] == needle
  }

  // The characters that str.strip() removes.
  predicate IsSpace(c: char) {
    var n := c as int;
    || 0x9 <= n <= 0xD || 0x1C <= n <= 0x20 || n == 0x85 || n == 0xA0 || n == 0x1680
    || 0x2000 <= n <= 0x200A || n in {0x2028, 0x2029, 0x202F, 0x205F, 0x3000}
  }

  function TrimLeft(s: string, drop: char -> bool): string {
    if s != [] && drop(s[0]) then TrimLeft(s[1..], drop) else s
  }

  function TrimRight(s: string, drop: char -> bool): string {
    if s != [] && drop(s[|s| - 1]) then TrimRight(s[..|s| - 1], drop) else s
  }

  // s.strip()
  function Strip(s: string): string {
    TrimRight(TrimLeft(s, IsSpace), IsSpace)
  }

  // s.strip(c), for a single character
  function StripChar(s: string, c: char): string {
    TrimRight(TrimLeft(s, Only(c)), Only(c))
  }

  function Only(c: char): char -> bool {
    x => x == c
  }

  // s.replace(a, b), for single characters
  function ReplaceChar(s: string, a: char, b: char): string {
    seq(|s|, i requires 0 <= i < |s| => if s[i] == a then b else s[i])
  }

  // s.split(sep): the text before the first separator, then the split of what follows it
  function Split(s: string, sep: string): (parts: seq<string>)
    requires sep != ""
    ensures parts != []
    decreases |s|
  {
    match FindFrom(s, sep, 0)
    case Nothing => [s]
    case Just(i) => [s[..i]] + Split(s[i + |sep|..], sep)
  }

  // Index of the first occurrence of sep at or after position from.
  function FindFrom(s: string, sep: string, from: nat): (r: Option<nat>)
    requires from <= |s|
    ensures r.Just? ==> from <= r.value && OccursAt(s, sep, r.value)
    ensures forall k: nat | from <= k < (if r.Just? then r.value else |s| + 1) :: !OccursAt(s, sep, k)
    decreases |s| - from
  {
    if from + |sep| > |s| then Nothing
    else if s[from..from + |sep|] == sep then Just(from)
    else if from == |s| then Nothing
    else FindFrom(s, sep, from + 1)
  }

  // ---------- what strip and split do ----------

  predicate Blank(s: string) {
    forall c | c in s :: IsSpace(c)
  }

  // No blank at either end.
  predicate Trimmed(s: string) {
    s != [] ==> !IsSpace(s[0]) && !IsSpace(s[|s| - 1])
  }

  lemma {:induction false} TrimLeftDrops(a: string, r: string, drop: char -> bool)
    requires (forall c | c in a :: drop(c)) && (r != [] ==> !drop(r[0]))
    ensures TrimLeft(a + r, drop) == r
  {
    if a == [] {
      assert a + r == r;
    } else {
      assert (a + r)[0] == a[0] && (a + r)[1..] == a[1..] + r;
      TrimLeftDrops(a[1..], r, drop);
    }
  }

  lemma {:induction false} TrimRightDrops(r: string, b: string, drop: char -> bool)
    requires (forall c | c in b :: drop(c)) && (r != [] ==> !drop(r[|r| - 1]))
    ensures TrimRight(r + b, drop) == r
  {
    if b == [] {
      assert r + b == r;
    } else {
      assert (r + b)[|r + b| - 1] == b[|b| - 1] && (r + b)[..|r + b| - 1] == r + b[..|b| - 1];
      TrimRightDrops(r, b[..|b| - 1], drop);
    }
  }

  // What lies between characters to drop, with none at its ends, is what is left.
  lemma TrimBothDrops(a: string, t: string, b: string, drop: char -> bool)
    requires (forall c | c in a + b :: drop(c)) && (t != [] ==> !drop(t[0]) && !drop(t[|t| - 1]))
    ensures TrimRight(TrimLeft(a + t + b, drop), drop) == t
  {
    assert forall c | c in a :: c in a + b;
    assert forall c | c in b :: c in a + b;
    if t == [] {
      assert a + t + b == (a + b) + [] && [] + [] == t;
      TrimLeftDrops(a + b, [], drop);
    } else {
      assert a + t + b == a + (t + b);
      TrimLeftDrops(a, t + b, drop);
      TrimRightDrops(t, b, drop);
    }
  }

  // strip() takes the blanks around a text away, whatever they are...
  lemma StripTakesBlanks(a: string, t: string, b: string)
    requires Blank(a) && Blank(b) && Trimmed(t)
    ensures Strip(a + t + b) == t
  {
    TrimBothDrops(a, t, b, IsSpace);
  }

  lemma {:induction false} TrimLeftIs(s: string, drop: char -> bool)
    ensures var r := TrimLeft(s, drop);
            && |r| <= |s| && s[|s| - |r|..] == r
            && (forall c | c in s[..|s| - |r|] :: drop(c)) && (r != [] ==> !drop(r[0]))
  {
    if s != [] && drop(s[0]) {
      TrimLeftIs(s[1..], drop);
      var n := |s| - |TrimLeft(s, drop)|;
      assert s[..n] == [s[0]] + s[1..][..n - 1];
    }
  }

  lemma {:induction false} TrimRightIs(s: string, drop: char -> bool)
    ensures var r := TrimRight(s, drop);
            r <= s && (forall c | c in s[|r|..] :: drop(c)) && (r != [] ==> !drop(r[|r| - 1]))
  {
    if s != [] && drop(s[|s| - 1]) {
      TrimRightIs(s[..|s| - 1], drop);
      var n := |TrimRight(s, drop)|;
      assert s[n..] == s[..|s| - 1][n..] + [s[|s| - 1]];
    }
  }

  // The text t between blanks.
  predicate BetweenBlanks(s: string, a: string, t: string, b: string) {
    s == a + t + b && Blank(a) && Blank(b)
  }

  // ... and nothing else.
  lemma StripIs(s: string)
    ensures Trimmed(Strip(s)) && exists a, b :: BetweenBlanks(s, a, Strip(s), b)
  {
    hide IsSpace, TrimLeft, TrimRight;
    var r := TrimLeft(s, IsSpace);
    var t := TrimRight(r, IsSpace);
    TrimLeftIs(s, IsSpace);
    TrimRightIs(r, IsSpace);
    assert Trimmed(t) by {
      assert t != [] ==> t[0] == r[0];
    }
    BetweenParts(s, r, t);
  }

  lemma BetweenParts(s: string, r: string, t: string)
    requires |r| <= |s| && s[|s| - |r|..] == r && t <= r && Blank(s[..|s| - |r|]) && Blank(r[|t|..])
    ensures BetweenBlanks(s, s[..|s| - |r|], t, r[|t|..])
  {
    hide Blank;
    var a, b := s[..|s| - |r|], r[|t|..];
    assert a + t + b == a + (t + b);
    assert t + b == r;
  }

  // Line ends, spaces and tabs are blanks; the characters of prompts and names are not.
  lemma Blanks()
    ensures Blank("\r\n \t") && Trimmed("nsh>/:BK")
  {}

  lemma OccurrenceStarts(s: string, sep: string, k: nat)
    requires sep != ""
    ensures OccursAt(s, sep, k) ==> k < |s| && s[k] == sep[0]
  {
    if OccursAt(s, sep, k) {
      assert s[k..k + |sep|][0] == s[k];
    }
  }

  // A separator that starts with a character of its own splits a text where it stands first.
  lemma SplitAtFirst(head: string, sep: string, rest: string)
    requires sep != "" && sep[0] !in head
    ensures Split(head + sep + rest, sep) == [head] + Split(rest, sep)
  {
    var s := head + sep + rest;
    assert OccursAt(s, sep, |head|);
    forall k: nat | k < |head|
      ensures !OccursAt(s, sep, k)
    {
      assert s[k] == head[k];
      OccurrenceStarts(s, sep, k);
    }
    assert FindFrom(s, sep, 0) == Just(|head|);
    assert s[..|head|] == head && s[|head| + |sep|..] == rest;
  }

  lemma SplitNowhere(s: string, sep: string)
    requires sep != "" && sep[0] !in s
    ensures Split(s, sep) == [s]
  {
    forall k: nat | k <= |s|
      ensures !OccursAt(s, sep, k)
    {
      OccurrenceStarts(s, sep, k);
    }
  }

  // The text again.
  function Join(parts: seq<string>, sep: string): string
    requires parts != []
  {
    if |parts| == 1 then parts[0] else parts[0] + sep + Join(parts[1..], sep)
  }

  lemma {:induction false} SplitJoins(s: string, sep: string)
    requires sep != ""
    ensures Join(Split(s, sep), sep) == s
    decreases |s|
  {
    match FindFrom(s, sep, 0) {
      case Nothing =>
      case Just(i) =>
        var rest := s[i + |sep|..];
        SplitJoins(rest, sep);
        assert Split(s, sep)[1..] == Split(rest, sep);
        assert s == s[..i] + sep + rest;
    }
  }

  // A text has one part exactly when the separator is not in it.
  lemma SplitOnce(s: string, sep: string)
    requires sep != ""
    ensures |Split(s, sep)| == 1 <==> !Contains(s, sep)
  {}

  lemma ConcatAssoc<T>(a: seq<T>, b: seq<T>, c: seq<T>)
    ensures a + (b + c) == (a + b) + c
  {}
}
