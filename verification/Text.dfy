/** The string operations of Go's strings package that the text algorithms use. A string is a sequence of bytes;
    trimming and upper-casing cover ASCII. */
module Text {

  const NL: char := '\n'

  predicate HasPrefix(s: string, prefix: string) {
    prefix <= s
  }

  predicate Contains(s: string, sub: string)
  {
    sub <= s || (s != [] && Contains(s[1..], sub))
  }

  lemma {:induction false} ContainsNeedsLength(s: string, sub: string)
    ensures Contains(s, sub) ==> |sub| <= |s|
  {
    if s == [] || sub <= s {
    } else {
      ContainsNeedsLength(s[1..], sub);
    }
  }

  lemma {:induction false} SuffixContains(front: string, s: string, sub: string)
    ensures Contains(s, sub) ==> Contains(front + s, sub)
  {
    if front == [] {
      assert front + s == s;
    } else {
      SuffixContains(front[1..], s, sub);
      assert (front + s)[1..] == front[1..] + s;
    }
  }

  lemma {:induction false} PrefixContains(s: string, back: string, sub: string)
    ensures Contains(s, sub) ==> Contains(s + back, sub)
  {
    if s == [] || sub <= s {
    } else {
      PrefixContains(s[1..], back, sub);
      assert (s + back)[1..] == s[1..] + back;
    }
  }

  // ---- split and join ----

  ghost predicate OneLine(s: string) {
    '\n' !in s
  }

  // strings.Split(s, "\n"): one more piece than there are newlines.
  function Split(s: string): (lines: seq<string>)
    ensures |lines| > 0
  {
    if s == [] then [[]]
    else
      var rest := Split(s[1..]);
      if s[0] == NL then [[]] + rest else [[s[0]] + rest[0]] + rest[1..]
  }

  // strings.Join(lines, "\n").
  function Join(lines: seq<string>): string
  {
    if lines == [] then []
    else if |lines| == 1 then lines[0]
    else lines[0] + [NL] + Join(lines[1..])
  }

  lemma {:induction false} JoinPushed(c: char, rest: seq<string>)
    requires rest != []
    ensures Join([[c] + rest[0]] + rest[1..]) == [c] + Join(rest)
  {
    assert ([[c] + rest[0]] + rest[1..])[1..] == rest[1..];
    if |rest| > 1 {
      assert [c] + rest[0] + [NL] + Join(rest[1..]) == [c] + (rest[0] + [NL] + Join(rest[1..]));
    }
  }

  lemma {:induction false} JoinSplit(s: string)
    ensures Join(Split(s)) == s
    ensures forall line :: line in Split(s) ==> OneLine(line)
  {
    if s == [] {
    } else {
      JoinSplit(s[1..]);
      var rest := Split(s[1..]);
      if s[0] == NL {
        assert ([[]] + rest)[1..] == rest;
      } else {
        JoinPushed(s[0], rest);
        assert rest[0] in rest;
      }
    }
  }

  lemma {:induction false} SplitLine(a: string, s: string)
    requires OneLine(a)
    ensures Split(a) == [a]
    ensures Split(a + "\n" + s) == [a] + Split(s)
  {
    var whole := a + "\n" + s;
    if a == [] {
      assert whole[1..] == s;
    } else {
      SplitLine(a[1..], s);
      assert whole[1..] == a[1..] + "\n" + s;
      assert a == [a[0]] + a[1..];
    }
  }

  lemma {:induction false} SplitJoin(lines: seq<string>)
    requires lines != [] && forall line :: line in lines ==> OneLine(line)
    ensures Split(Join(lines)) == lines
  {
    assert lines[0] in lines;
    if |lines| == 1 {
      SplitLine(lines[0], []);
    } else {
      SplitJoin(lines[1..]);
      SplitLine(lines[0], Join(lines[1..]));
    }
  }

  // Joining two lists of lines is joining them with one newline in between.
  lemma {:induction false} JoinAppend(a: seq<string>, b: seq<string>)
    requires a != [] && b != []
    ensures Join(a + b) == Join(a) + "\n" + Join(b)
  {
    if |a| == 1 {
      assert (a + b)[1..] == b;
    } else {
      JoinAppend(a[1..], b);
      assert (a + b)[1..] == a[1..] + b;
      assert a[0] + [NL] + (Join(a[1..]) + [NL] + Join(b)) == a[0] + [NL] + Join(a[1..]) + [NL] + Join(b);
    }
  }

  // ---- trimming ----

  predicate IsSpace(c: char) {
    c == ' ' || c == '\t' || c == NL || c == '\r' || c == 11 as char || c == 12 as char
  }

  function TrimLeft(s: string): string
  {
    if s != [] && IsSpace(s[0]) then TrimLeft(s[1..]) else s
  }

  function TrimRight(s: string): string
  {
    if s != [] && IsSpace(s[|s|-1]) then TrimRight(s[..|s|-1]) else s
  }

  function TrimSpace(s: string): string {
    TrimRight(TrimLeft(s))
  }

  predicate Trimmed(s: string) {
    s != [] && !IsSpace(s[0]) && !IsSpace(s[|s|-1])
  }

  lemma {:induction false} TrimmedIsKept(s: string)
    requires Trimmed(s)
    ensures TrimSpace(s) == s
  {
  }

  ghost predicate AllSpace(s: string) {
    forall c :: c in s ==> IsSpace(c)
  }

  lemma {:induction false} TrimLeftSplits(s: string) returns (before: string)
    ensures s == before + TrimLeft(s) && AllSpace(before)
    ensures TrimLeft(s) != [] ==> !IsSpace(TrimLeft(s)[0])
  {
    if s != [] && IsSpace(s[0]) {
      var rest := TrimLeftSplits(s[1..]);
      before := [s[0]] + rest;
    } else {
      before := [];
    }
  }

  lemma {:induction false} TrimRightSplits(s: string) returns (after: string)
    ensures s == TrimRight(s) + after && AllSpace(after)
    ensures TrimRight(s) != [] ==> !IsSpace(TrimRight(s)[|TrimRight(s)|-1])
  {
    if s != [] && IsSpace(s[|s|-1]) {
      var rest := TrimRightSplits(s[..|s|-1]);
      after := rest + [s[|s|-1]];
    } else {
      after := [];
    }
  }

  // What remains is the string without the spaces around it, and has none at its ends.
  lemma {:induction false} TrimSpaceIsTheCore(s: string) returns (before: string, after: string)
    ensures s == before + TrimSpace(s) + after && AllSpace(before) && AllSpace(after)
    ensures TrimSpace(s) == [] || Trimmed(TrimSpace(s))
    // Spaces are the blank, tab, line feed, vertical tab, form feed and carriage return.
    ensures forall c :: IsSpace(c) <==> c as int in {9, 10, 11, 12, 13, 32}
  {
    before := TrimLeftSplits(s);
    after := TrimRightSplits(TrimLeft(s));
    var left, core := TrimLeft(s), TrimSpace(s);
    if core != [] {
      assert left[0] == core[0];
    }
  }

  // Only all-space strings trim to nothing.
  lemma {:induction false} BlankIff(s: string)
    ensures TrimSpace(s) == [] <==> AllSpace(s)
  {
    var before, after := TrimSpaceIsTheCore(s);
    var core := TrimSpace(s);
    if core != [] {
      assert core[0] in s;
    }
  }

  // Lines joined from a trimmed first one to a trimmed last one need no trimming.
  lemma {:induction false} JoinIsTrimmed(lines: seq<string>)
    requires lines != [] && Trimmed(lines[0]) && Trimmed(lines[|lines|-1])
    ensures Trimmed(Join(lines))
  {
    if |lines| > 1 {
      JoinEnds(lines);
    }
  }

  lemma {:induction false} JoinEnds(lines: seq<string>)
    requires lines != [] && lines[|lines|-1] != []
    ensures var last := lines[|lines|-1]; Join(lines) != [] && Join(lines)[|Join(lines)|-1] == last[|last|-1]
  {
    if |lines| == 1 {
      assert Join(lines) == lines[0];
    } else {
      var rest := lines[1..];
      JoinEnds(rest);
      assert Join(lines) == lines[0] + [NL] + Join(rest);
    }
  }

  // ---- case ----

  function UpperChar(c: char): char {
    if 'a' <= c <= 'z' then (c as int - 32) as char else c
  }

  function ToUpper(s: string): (u: string)
    ensures |u| == |s|
    ensures forall i :: 0 <= i < |s| ==> u[i] == UpperChar(s[i])
  {
    seq(|s|, i requires 0 <= i < |s| => UpperChar(s[i]))
  }

  // Letters from a to z become those from A to Z, and nothing else changes.
  lemma {:induction false} UpperLetters(s: string, i: nat)
    requires i < |s|
    ensures var u := ToUpper(s);
            if 'a' <= s[i] <= 'z' then 'A' <= u[i] <= 'Z' && u[i] as int - 'A' as int == s[i] as int - 'a' as int
            else u[i] == s[i]
  {
  }
}
