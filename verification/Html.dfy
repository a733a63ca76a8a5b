/** Whitespace tidying of extracted page text (delegator/contextmode/html.go). */
module Html {
  import opened Text

  const TRIPLE := [NL, NL, NL]
  const DOUBLE := [NL, NL]

  // strings.ReplaceAll(s, "\n\n\n", "\n\n"): left to right, without overlaps.
  function ReplaceTriples(s: string): string
  {
    if |s| < 3 then s
    else if s[..3] == TRIPLE then DOUBLE + ReplaceTriples(s[3..])
    else [s[0]] + ReplaceTriples(s[1..])
  }

  // One pass over the text that keeps at most two newlines of every run; run counts those just kept.
  function Squeeze(s: string, run: nat): string
    requires run <= 2
  {
    if s == [] then []
    else if s[0] != NL then [s[0]] + Squeeze(s[1..], 0)
    else if run < 2 then [NL] + Squeeze(s[1..], run + 1)
    else Squeeze(s[1..], 2)
  }

  function Newlines(n: nat): (s: string)
    ensures |s| == n && forall i :: 0 <= i < n ==> s[i] == '\n'
  {
    if n == 0 then [] else [NL] + Newlines(n - 1)
  }

  /** tidy: replaces until no triple newline is left, then trims. */
  method Tidy(s: string) returns (r: string)
    ensures r == TrimSpace(Squeeze(s, 0))
  {
    var t := s;
    while Contains(t, TRIPLE)
      invariant Squeeze(t, 0) == Squeeze(s, 0)
      decreases |t|
    {
      ReplacingKeepsSqueeze(t, 0);
      ReplacingShortens(t);
      t := ReplaceTriples(t);
    }
    assert Newlines(0) + t == t;
    SqueezeIsIdentity(t, 0);
    r := TrimSpace(t);
  }

  lemma {:induction false} ReplacingShortens(s: string)
    ensures |ReplaceTriples(s)| <= |s|
    ensures Contains(s, TRIPLE) ==> |ReplaceTriples(s)| < |s|
  {
    if |s| < 3 {
      ContainsNeedsLength(s, TRIPLE);
    } else if s[..3] == TRIPLE {
      ReplacingShortens(s[3..]);
    } else {
      ReplacingShortens(s[1..]);
    }
  }

  // However many rounds of replacement have run, the one-pass result is the same.
  lemma {:induction false} ReplacingKeepsSqueeze(s: string, run: nat)
    requires run <= 2
    ensures Squeeze(ReplaceTriples(s), run) == Squeeze(s, run)
    decreases |s|
  {
    if |s| < 3 {
    } else {
      if s[..3] == TRIPLE {
        ReplacingKeepsSqueeze(s[3..], 2);
        SqueezeNewlines(2, ReplaceTriples(s[3..]), run);
        SqueezeNewlines(3, s[3..], run);
        assert Newlines(2) == DOUBLE && Newlines(3) == TRIPLE;
        assert s == TRIPLE + s[3..];
      } else {
        ReplacingKeepsSqueeze(s[1..], if s[0] != NL then 0 else if run < 2 then run + 1 else 2);
        assert ([s[0]] + ReplaceTriples(s[1..]))[1..] == ReplaceTriples(s[1..]);
      }
    }
  }

  // How many of n further newlines are kept after a run.
  function Kept(n: nat, run: nat): nat
    requires run <= 2
  {
    if run + n <= 2 then n else 2 - run
  }

  lemma {:induction false} SqueezeNewlines(n: nat, t: string, run: nat)
    requires run <= 2
    ensures Squeeze(Newlines(n) + t, run) == Newlines(Kept(n, run)) + Squeeze(t, run + Kept(n, run))
  {
    var s := Newlines(n) + t;
    if n == 0 {
      assert s == t;
    } else {
      assert s[0] == NL && s[1..] == Newlines(n - 1) + t;
      if run == 2 {
        SqueezeNewlines(n - 1, t, 2);
      } else {
        SqueezeNewlines(n - 1, t, run + 1);
        OneMoreNewline(Kept(n - 1, run + 1), Squeeze(t, run + Kept(n, run)));
      }
    }
  }

  lemma {:induction false} OneMoreNewline(k: nat, rest: string)
    ensures [NL] + (Newlines(k) + rest) == Newlines(k + 1) + rest
  {
  }

  lemma {:induction false} TripleAhead(s: string)
    requires s != [] && s[0] == NL
    ensures Contains(Newlines(2) + s, TRIPLE)
  {
    assert TRIPLE <= Newlines(2) + s;
  }

  lemma {:induction false} SqueezeIsIdentity(s: string, run: nat)
    requires run <= 2 && !Contains(Newlines(run) + s, TRIPLE)
    ensures Squeeze(s, run) == s
    decreases |s|
  {
    if s == [] {
    } else {
      if s[0] != NL {
        SuffixContains(Newlines(run) + [s[0]], s[1..], TRIPLE);
        assert Newlines(run) + [s[0]] + s[1..] == Newlines(run) + s;
        assert Newlines(0) + s[1..] == s[1..];
        SqueezeIsIdentity(s[1..], 0);
      } else {
        assert Newlines(run) + s == Newlines(run + 1) + s[1..];
        TripleAhead(s);
        if run < 2 {
          SqueezeIsIdentity(s[1..], run + 1);
        }
      }
    }
  }

  // ---- what tidying means ----

  // Every maximal run of n newlines becomes min(n, 2) of them and all other characters stay.
  lemma {:induction false} SqueezeByRuns(n: nat, t: string)
    requires t != [] ==> t[0] != '\n'
    ensures Squeeze(Newlines(n) + t, 0) == Newlines(if n <= 2 then n else 2) + Squeeze(t, 0)
    ensures t != [] ==> Squeeze(t, 0) == [t[0]] + Squeeze(t[1..], 0)
  {
    SqueezeNewlines(n, t, 0);
  }

  lemma {:induction false} SqueezeLeavesNoTriple(s: string, run: nat)
    requires run <= 2
    ensures !Contains(Newlines(run) + Squeeze(s, run), TRIPLE)
    decreases |s|
  {
    var out := Newlines(run) + Squeeze(s, run);
    if s == [] {
      ContainsNeedsLength(out, TRIPLE);
    } else if s[0] != NL {
      SqueezeLeavesNoTriple(s[1..], 0);
      var rest := Squeeze(s[1..], 0);
      assert Newlines(0) + rest == rest;
      assert out == Newlines(run) + ([s[0]] + rest);
      BrokenRun(run, s[0], rest);
    } else if run < 2 {
      SqueezeLeavesNoTriple(s[1..], run + 1);
      assert out == Newlines(run + 1) + Squeeze(s[1..], run + 1);
    } else {
      SqueezeLeavesNoTriple(s[1..], 2);
    }
  }

  lemma {:induction false} BrokenRun(run: nat, c: char, t: string)
    requires run <= 2 && c != NL && !Contains(t, TRIPLE)
    ensures !Contains(Newlines(run) + ([c] + t), TRIPLE)
  {
    var s := Newlines(run) + ([c] + t);
    assert s[run] == c;
    if run > 0 {
      BrokenRun(run - 1, c, t);
      assert s[1..] == Newlines(run - 1) + ([c] + t);
    } else {
      assert s[1..] == t;
    }
  }

  // A tidied text is left alone by tidying it again.
  lemma {:induction false} TidyIsIdempotent(s: string)
    ensures TrimSpace(Squeeze(TrimSpace(Squeeze(s, 0)), 0)) == TrimSpace(Squeeze(s, 0))
    ensures !Contains(TrimSpace(Squeeze(s, 0)), "\n\n\n")
  {
    var whole := Squeeze(s, 0);
    SqueezeLeavesNoTriple(s, 0);
    assert Newlines(0) + whole == whole;
    TrimmingLeavesNoTriple(whole);
    var core := TrimSpace(whole);
    assert Newlines(0) + core == core;
    SqueezeIsIdentity(core, 0);
    var _, _ := TrimSpaceIsTheCore(whole);
    if core != [] {
      TrimmedIsKept(core);
    }
  }

  lemma {:induction false} TrimmingLeavesNoTriple(whole: string)
    requires !Contains(whole, TRIPLE)
    ensures !Contains(TrimSpace(whole), TRIPLE)
  {
    var core := TrimSpace(whole);
    var before, after := TrimSpaceIsTheCore(whole);
    assert whole == before + (core + after);
    SuffixContains(before, core + after, TRIPLE);
    PrefixContains(core, after, TRIPLE);
  }

  // ---- collapseWS ----

  predicate IsBlank(c: char) {
    c == NL || c == '\t' || c == '\r'
  }

  function Blanked(c: char): char {
    if IsBlank(c) then ' ' else c
  }

  // What is still written once the last character written is prev.
  function CollapseFrom(s: string, prev: char): string
  {
    if s == [] then []
    else
      var c := Blanked(s[0]);
      if c == ' ' && prev == ' ' then CollapseFrom(s[1..], prev) else [c] + CollapseFrom(s[1..], c)
  }

  method CollapseWS(s: string) returns (r: string)
    ensures r == CollapseFrom(s, ' ')
  {
    if s == "" {
      return s;
    }
    r := "";
    var prev := ' ';
    for i := 0 to |s|
      invariant r + CollapseFrom(s[i..], prev) == CollapseFrom(s, ' ')
    {
      var c := s[i];
      assert s[i..][1..] == s[i+1..];
      if c == NL || c == '\t' || c == '\r' {
        c := ' ';
      }
      if c == ' ' && prev == ' ' {
        continue;
      }
      assert r + ([c] + CollapseFrom(s[i+1..], c)) == r + [c] + CollapseFrom(s[i+1..], c);
      r := r + [c];
      prev := c;
    }
    assert r + [] == r;
  }

  // A second pass changes nothing.
  lemma {:induction false} CollapseIsIdempotent(s: string, prev: char)
    ensures CollapseFrom(CollapseFrom(s, prev), prev) == CollapseFrom(s, prev)
  {
    if s == [] {
    } else {
      var c := Blanked(s[0]);
      if c == ' ' && prev == ' ' {
        CollapseIsIdempotent(s[1..], prev);
      } else {
        CollapseIsIdempotent(s[1..], c);
        assert CollapseFrom(s, prev)[1..] == CollapseFrom(s[1..], c);
      }
    }
  }

  // No tab or line break is left, no space doubled, and none at the start.
  lemma {:induction false} CollapsedIsClean(s: string, prev: char)
    ensures var r := CollapseFrom(s, prev);
            && (forall i :: 0 <= i < |r| ==> r[i] != '\n' && r[i] != '\t' && r[i] != '\r')
            && (forall i :: 0 <= i < |r| - 1 ==> !(r[i] == ' ' && r[i+1] == ' '))
            && (prev == ' ' && r != [] ==> r[0] != ' ')
  {
    if s == [] {
    } else {
      var c := Blanked(s[0]);
      if c == ' ' && prev == ' ' {
        CollapsedIsClean(s[1..], prev);
      } else {
        CollapsedIsClean(s[1..], c);
        var r, rest := CollapseFrom(s, prev), CollapseFrom(s[1..], c);
        assert r == [c] + rest && r[0] == c;
        forall i | 0 <= i < |r|
          ensures r[i] != '\n' && r[i] != '\t' && r[i] != '\r' && (i < |r| - 1 ==> !(r[i] == ' ' && r[i+1] == ' '))
        {
          assert i > 0 ==> r[i] == rest[i-1];
          assert i < |r| - 1 ==> r[i+1] == rest[i];
        }
      }
    }
  }

  predicate Separates(c: char) {
    Blanked(c) == ' '
  }

  // The maximal stretches without whitespace.
  function Words(s: string): (words: seq<string>)
    ensures s != [] && !Separates(s[0]) ==> words != []
  {
    if s == [] then []
    else
      var rest := Words(s[1..]);
      if Separates(s[0]) then rest
      else if |s| == 1 || Separates(s[1]) then [[s[0]]] + rest
      else [[s[0]] + rest[0]] + rest[1..]
  }

  function Spaced(words: seq<string>): string
  {
    if words == [] then []
    else if |words| == 1 then words[0]
    else words[0] + [' '] + Spaced(words[1..])
  }

  function Trailing(s: string): string
  {
    if s != [] && Separates(s[|s|-1]) && Words(s) != [] then [' '] else []
  }

  // The collapsed text is the words with one space between them, and one more after them if whitespace ended the text.
  lemma {:induction false} CollapseSpacesWords(s: string)
    ensures CollapseFrom(s, ' ') == Spaced(Words(s)) + Trailing(s)
    ensures forall c :: Separates(c) <==> c == ' ' || c == '\n' || c == '\t' || c == '\r'
  {
    if s == [] {
    } else {
      var t := s[1..];
      CollapseSpacesWords(t);
      if Separates(s[0]) {
        assert t != [] ==> t[|t|-1] == s[|s|-1];
      } else if t == [] {
        assert CollapseFrom(s, ' ') == [s[0]] + [];
      } else if Separates(t[0]) {
        WordThenSpace(s);
      } else {
        var rest := Words(t);
        assert CollapseFrom(t, s[0]) == CollapseFrom(t, ' ');
        SpacedLonger(s[0], rest);
        assert CollapseFrom(s, ' ') == [s[0]] + (Spaced(rest) + Trailing(t));
      }
    }
  }

  lemma {:induction false} SpacedLonger(c: char, words: seq<string>)
    requires words != []
    ensures Spaced([[c] + words[0]] + words[1..]) == [c] + Spaced(words)
  {
    var longer := [[c] + words[0]] + words[1..];
    assert longer[1..] == words[1..];
    if |words| > 1 {
      assert [c] + words[0] + [' '] + Spaced(words[1..]) == [c] + (words[0] + [' '] + Spaced(words[1..]));
    }
  }

  lemma {:induction false} SpacedCons(word: string, rest: seq<string>)
    requires rest != []
    ensures Spaced([word] + rest) == word + [' '] + Spaced(rest)
  {
    assert ([word] + rest)[1..] == rest;
  }

  lemma {:induction false} WordThenSpace(s: string)
    requires |s| > 1 && !Separates(s[0]) && Separates(s[1])
    requires CollapseFrom(s[1..], ' ') == Spaced(Words(s[1..])) + Trailing(s[1..])
    ensures CollapseFrom(s, ' ') == Spaced(Words(s)) + Trailing(s)
  {
    var t := s[1..];
    var rest := Words(t);
    assert CollapseFrom(s, ' ') == [s[0]] + ([' '] + CollapseFrom(t, ' '));
    assert Words(s) == [[s[0]]] + rest && ([[s[0]]] + rest)[1..] == rest;
    if rest == [] {
      NoWords(t);
      assert Spaced(Words(s)) == [s[0]] && Trailing(s) == [' '] && Trailing(t) == [];
    } else {
      SpacedCons([s[0]], rest);
      assert Trailing(s) == Trailing(t);
      assert [s[0]] + ([' '] + (Spaced(rest) + Trailing(t))) == ([s[0]] + [' '] + Spaced(rest)) + Trailing(t);
    }
  }

  lemma {:induction false} NoWords(s: string)
    requires Words(s) == []
    ensures forall i :: 0 <= i < |s| ==> Separates(s[i])
  {
    if s == [] {
    } else {
      NoWords(s[1..]);
    }
  }
}
