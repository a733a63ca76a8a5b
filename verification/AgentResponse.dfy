/** Reading a language model's line-oriented answer (delegator/llm/client.go). */
module AgentResponse {
  import opened Sequences
  import opened Text
  import opened Wrappers

  datatype CheckResult = CheckResult(agent: string, verdict: string, confidence: real, severity: string,
                                     category: string, rationale: string, details: seq<string>)

  // The constants of the shared types package.
  const PASS := "PASS"
  const WARNING := "WARNING"
  const FAIL := "FAIL"
  const LOW := "LOW"
  const MEDIUM := "MEDIUM"
  const HIGH := "HIGH"
  const CRITICAL := "CRITICAL"

  const EMPTY_RESPONSE := "Empty response from LLM"
  const NO_ISSUES := "No specific issues identified"

  predicate LegalVerdict(v: string) {
    v == PASS || v == WARNING || v == FAIL
  }

  predicate LegalSeverity(s: string) {
    s == LOW || s == MEDIUM || s == HIGH || s == CRITICAL
  }

  // What strconv.ParseFloat makes of a text; rounding aside.
  datatype Float = Invalid | NaN | Infinite(positive: bool) | Number(value: real)

  // ---- lines ----

  datatype Header = VerdictHeader | ConfidenceHeader | SeverityHeader | RationaleHeader | DetailsHeader
  {
    function Label(): string {
      match this
      case VerdictHeader => "VERDICT:"
      case ConfidenceHeader => "CONFIDENCE:"
      case SeverityHeader => "SEVERITY:"
      case RationaleHeader => "RATIONALE:"
      case DetailsHeader => "DETAILS:"
    }
  }

  const HEADERS := [VerdictHeader, ConfidenceHeader, SeverityHeader, RationaleHeader, DetailsHeader]

  datatype Line = Blank | Labelled(header: Header, text: string) | Plain(text: string)

  // The header a line starts with, in any letter case.
  function HeaderOf(line: string): (h: Option<Header>)
    ensures h.Some? ==> HasPrefix(ToUpper(line), h.value.Label())
  {
    var upper := ToUpper(line);
    if HasPrefix(upper, VerdictHeader.Label()) then Some(VerdictHeader)
    else if HasPrefix(upper, ConfidenceHeader.Label()) then Some(ConfidenceHeader)
    else if HasPrefix(upper, SeverityHeader.Label()) then Some(SeverityHeader)
    else if HasPrefix(upper, RationaleHeader.Label()) then Some(RationaleHeader)
    else if HasPrefix(upper, DetailsHeader.Label()) then Some(DetailsHeader)
    else None
  }

  function Classify(raw: string): Line {
    var line := TrimSpace(raw);
    if line == "" then Blank
    else
      var header := HeaderOf(line);
      if header.None? then Plain(line)
      else Labelled(header.value, TrimSpace(line[|header.value.Label()|..]))
  }

  // ---- what a line says ----

  function VerdictIn(line: Line): Option<string> {
    if !line.Labelled? || line.header != VerdictHeader then None
    else
      var verdict := ToUpper(line.text);
      if Contains(verdict, PASS) then Some(PASS)
      else if Contains(verdict, WARNING) then Some(WARNING)
      else if Contains(verdict, FAIL) then Some(FAIL)
      else None
  }

  function Distance(x: real, y: real): real {
    if x <= y then y - x else x - y
  }

  // What does not parse is ignored; everything else is moved to the nearest point of [0,1], and NaN to one.
  function Clamped(f: Float): (r: Option<real>)
    ensures r.None? <==> f == Invalid
    ensures r.Some? ==> 0.0 <= r.value <= 1.0
    ensures f.Number? ==> forall y :: 0.0 <= y <= 1.0 ==> Distance(f.value, r.value) <= Distance(f.value, y)
    ensures f == NaN || f == Infinite(true) ==> r == Some(1.0)
    ensures f == Infinite(false) ==> r == Some(0.0)
  {
    match f
    case Invalid => None
    case NaN => Some(1.0)
    case Infinite(positive) => Some(if positive then 1.0 else 0.0)
    case Number(x) => Some(if 0.0 <= x <= 1.0 then x else if x < 0.0 then 0.0 else 1.0)
  }

  function ConfidenceSaid(parseFloat: string -> Float, line: Line): Option<real> {
    if !line.Labelled? || line.header != ConfidenceHeader then None else Clamped(parseFloat(line.text))
  }

  function ConfidenceIn(parseFloat: string -> Float): Line -> Option<real> {
    (line: Line) => ConfidenceSaid(parseFloat, line)
  }

  function SeverityIn(line: Line): Option<string> {
    if !line.Labelled? || line.header != SeverityHeader then None
    else if LegalSeverity(ToUpper(line.text)) then Some(ToUpper(line.text))
    else None
  }

  function RationaleIn(line: Line): Option<string> {
    if line.Labelled? && line.header == RationaleHeader then Some(line.text) else None
  }

  // The last answer given, or the default.
  function Last<T>(pick: Line -> Option<T>, lines: seq<Line>, default: T): T
  {
    if lines == [] then default
    else
      var x := pick(lines[|lines|-1]);
      if x.Some? then x.value else Last(pick, lines[..|lines|-1], default)
  }

  // ---- regions of details ----

  predicate OpensDetails(line: Line) {
    line.Labelled? && line.header == DetailsHeader
  }

  // A line is in a region if a DETAILS header is on it, or above it with only unlabelled text after that.
  ghost predicate InRegion(lines: seq<Line>, i: nat)
    requires i < |lines|
  {
    exists j :: 0 <= j <= i && OpensDetails(lines[j]) && forall k :: j < k <= i ==> lines[k].Plain?
  }

  ghost predicate RegionIsOpen(lines: seq<Line>) {
    lines != [] && InRegion(lines, |lines| - 1)
  }

  ghost function DetailAt(lines: seq<Line>, i: nat): seq<string>
    requires i < |lines|
  {
    if !lines[i].Blank? && lines[i].text != "" && InRegion(lines, i) then [lines[i].text] else []
  }

  // The non-empty texts of all lines in regions, in order.
  ghost function DetailLines(lines: seq<Line>): seq<string>
  {
    if lines == [] then [] else DetailLines(lines[..|lines|-1]) + DetailAt(lines, |lines| - 1)
  }

  lemma {:induction false} InRegionOfLonger(lines: seq<Line>, line: Line, i: nat)
    requires i < |lines|
    ensures InRegion(lines + [line], i) <==> InRegion(lines, i)
  {
    var longer := lines + [line];
    assert forall j :: 0 <= j <= i ==> longer[j] == lines[j];
  }

  // A region goes on just through unlabelled text.
  lemma {:induction false} RegionGrows(lines: seq<Line>, line: Line)
    ensures RegionIsOpen(lines + [line]) <==> OpensDetails(line) || (line.Plain? && RegionIsOpen(lines))
  {
    var longer, n := lines + [line], |lines|;
    assert longer[n] == line;
    if n > 0 {
      InRegionOfLonger(lines, line, n - 1);
      if line.Plain? && InRegion(longer, n - 1) {
        var j :| 0 <= j <= n - 1 && OpensDetails(longer[j]) && forall k :: j < k <= n - 1 ==> longer[k].Plain?;
        assert InRegion(longer, n);
      }
      if InRegion(longer, n) && !OpensDetails(line) {
        var j :| 0 <= j <= n && OpensDetails(longer[j]) && forall k :: j < k <= n ==> longer[k].Plain?;
        assert longer[n].Plain?;
        assert InRegion(longer, n - 1);
      }
    }
  }

  lemma {:induction false} DetailsGrow(lines: seq<Line>, line: Line)
    ensures DetailLines(lines + [line])
            == DetailLines(lines)
               + if (OpensDetails(line) || (line.Plain? && RegionIsOpen(lines))) && line.text != ""
                 then [line.text] else []
  {
    assert (lines + [line])[..|lines|] == lines;
    RegionGrows(lines, line);
  }

  // ---- the parser ----

  function Default(agent: string): CheckResult {
    CheckResult(agent, FAIL, 0.5, MEDIUM, ToUpper(agent), "", [])
  }

  // The last word on each single-valued field, and the lines of all DETAILS regions.
  ghost function Reading(agent: string, parseFloat: string -> Float, lines: seq<Line>): CheckResult {
    CheckResult(
      agent, Last(VerdictIn, lines, FAIL), Last(ConfidenceIn(parseFloat), lines, 0.5), Last(SeverityIn, lines, MEDIUM),
      ToUpper(agent), Last(RationaleIn, lines, ""), DetailLines(lines))
  }

  function Classified(response: string): seq<Line> {
    Mapped(Classify, Split(TrimSpace(response)))
  }

  ghost function Interpreted(agent: string, parseFloat: string -> Float, response: string): CheckResult {
    if AllSpace(response) then Default(agent).(rationale := EMPTY_RESPONSE)
    else
      var r := Reading(agent, parseFloat, Classified(response));
      if r.rationale == "" then r.(rationale := NO_ISSUES) else r
  }

  method StartsWithRecognizedHeader(line: string) returns (found: bool)
    ensures found <==>
            var upper := ToUpper(line);
            "VERDICT:" <= upper || "CONFIDENCE:" <= upper || "SEVERITY:" <= upper || "RATIONALE:" <= upper
            || "DETAILS:" <= upper
    ensures found <==> HeaderOf(line).Some?
  {
    var upper := ToUpper(line);
    for i := 0 to |HEADERS|
      invariant forall k :: 0 <= k < i ==> !HasPrefix(upper, HEADERS[k].Label())
    {
      if HasPrefix(upper, HEADERS[i].Label()) {
        return true;
      }
    }
    assert HEADERS[0].Label() == "VERDICT:" && HEADERS[1].Label() == "CONFIDENCE:";
    assert HEADERS[2].Label() == "SEVERITY:" && HEADERS[3].Label() == "RATIONALE:" && HEADERS[4].Label() == "DETAILS:";
    return false;
  }

  lemma {:induction false} LastGrows<T>(pick: Line -> Option<T>, lines: seq<Line>, line: Line, default: T)
    ensures Last(pick, lines + [line], default)
            == if pick(line).Some? then pick(line).value else Last(pick, lines, default)
  {
    assert (lines + [line])[..|lines|] == lines;
  }

  lemma {:induction false} ReadingGrows(agent: string, parseFloat: string -> Float, lines: seq<Line>, line: Line)
    ensures var r, r' := Reading(agent, parseFloat, lines), Reading(agent, parseFloat, lines + [line]);
            && r'.agent == r.agent && r'.category == r.category
            && r'.verdict == (if VerdictIn(line).Some? then VerdictIn(line).value else r.verdict)
            && r'.confidence == (if ConfidenceSaid(parseFloat, line).Some?
                then ConfidenceSaid(parseFloat, line).value else r.confidence)
            && r'.severity == (if SeverityIn(line).Some? then SeverityIn(line).value else r.severity)
            && r'.rationale == (if RationaleIn(line).Some? then RationaleIn(line).value else r.rationale)
            && r'.details == DetailLines(lines + [line])
  {
    LastGrows(VerdictIn, lines, line, FAIL);
    LastGrows(ConfidenceIn(parseFloat), lines, line, 0.5);
    LastGrows(SeverityIn, lines, line, MEDIUM);
    LastGrows(RationaleIn, lines, line, "");
  }

  lemma {:induction false} LineClassified(raw: string)
    ensures var line := TrimSpace(raw);
            Classify(raw) == if line == "" then Blank
                             else if HeaderOf(line).None? then Plain(line)
                             else Labelled(HeaderOf(line).value, TrimSpace(line[|HeaderOf(line).value.Label()|..]))
  {
  }

  // A labelled line replaces what was read of its field, or opens a region of details.
  method TakeLabelled(result: CheckResult, header: Header, text: string, parseFloat: string -> Float,
          ghost agent: string, ghost lines: seq<Line>)
    returns (result': CheckResult, seenDetails: bool)
    requires result == Reading(agent, parseFloat, lines)
    ensures result' == Reading(agent, parseFloat, lines + [Labelled(header, text)])
    ensures seenDetails <==> header == DetailsHeader
  {
    ghost var line := Labelled(header, text);
    ReadingGrows(agent, parseFloat, lines, line);
    DetailsGrow(lines, line);
    result', seenDetails := result, false;
    match header
    case VerdictHeader =>
      var verdict := ToUpper(text);
      if Contains(verdict, PASS) {
        result' := result.(verdict := PASS);
      } else if Contains(verdict, WARNING) {
        result' := result.(verdict := WARNING);
      } else if Contains(verdict, FAIL) {
        result' := result.(verdict := FAIL);
      }
    case ConfidenceHeader =>
      var conf := parseFloat(text);
      if conf != Invalid {
        result' := result.(confidence := Clamped(conf).value);
      }
    case SeverityHeader =>
      var severity := ToUpper(text);
      if LegalSeverity(severity) {
        result' := result.(severity := severity);
      }
    case RationaleHeader =>
      result' := result.(rationale := text);
    case DetailsHeader =>
      seenDetails := true;
      if text != "" {
        result' := result.(details := result.details + [text]);
      }
  }

  // One turn of the loop.
  method TakeLine(result: CheckResult, seenDetails: bool, raw: string, parseFloat: string -> Float,
          ghost agent: string, ghost lines: seq<Line>)
    returns (result': CheckResult, seenDetails': bool)
    requires result == Reading(agent, parseFloat, lines) && (seenDetails <==> RegionIsOpen(lines))
    ensures result' == Reading(agent, parseFloat, lines + [Classify(raw)])
    ensures seenDetails' <==> RegionIsOpen(lines + [Classify(raw)])
  {
    RegionGrows(lines, Classify(raw));
    LineClassified(raw);
    var line := TrimSpace(raw);
    if line == "" {
      NothingRead(agent, parseFloat, lines, Blank);
      return result, false;
    }
    var header := HeaderOf(line);
    if header.Some? {
      var text := TrimSpace(line[|header.value.Label()|..]);
      result', seenDetails' := TakeLabelled(result, header.value, text, parseFloat, agent, lines);
    } else {
      var recognized := StartsWithRecognizedHeader(line);
      NothingRead(agent, parseFloat, lines, Plain(line));
      result', seenDetails' := result, seenDetails;
      if seenDetails && !recognized {
        result' := result.(details := result.details + [line]);
      }
    }
  }

  // A line without a label leaves the single-valued fields alone.
  lemma {:induction false} NothingRead(agent: string, parseFloat: string -> Float, lines: seq<Line>, line: Line)
    requires !line.Labelled?
    ensures Reading(agent, parseFloat, lines + [line])
            == var r := Reading(agent, parseFloat, lines);
               if line.Plain? && RegionIsOpen(lines) && line.text != ""
               then r.(details := r.details + [line.text]) else r
  {
    ReadingGrows(agent, parseFloat, lines, line);
    DetailsGrow(lines, line);
  }

  // Only a response of nothing but whitespace is one blank line once trimmed.
  lemma {:induction false} BlankResponseIff(response: string)
    ensures var raws := Split(TrimSpace(response));
            (|raws| == 1 && TrimSpace(raws[0]) == "") <==> AllSpace(response)
  {
    var t := TrimSpace(response);
    BlankIff(response);
    BlankIff(t);
    JoinSplit(t);
    var _, _ := TrimSpaceIsTheCore(response);
    if t != [] {
      assert t[0] in t;
    }
  }

  method ParseAgentResponse(response: string, agent: string, parseFloat: string -> Float) returns (result: CheckResult)
    ensures result == Interpreted(agent, parseFloat, response)
  {
    var raws := Split(TrimSpace(response));
    result := Default(agent);
    BlankResponseIff(response);
    if |raws| == 1 && TrimSpace(raws[0]) == "" {
      result := result.(rationale := EMPTY_RESPONSE);
      return;
    }
    result := TakeLines(raws, agent, parseFloat);
    if result.rationale == "" {
      result := result.(rationale := NO_ISSUES);
    }
  }

  method TakeLines(raws: seq<string>, agent: string, parseFloat: string -> Float) returns (result: CheckResult)
    ensures result == Reading(agent, parseFloat, Mapped(Classify, raws))
  {
    result := Default(agent);
    var seenDetails := false;
    ghost var lines: seq<Line> := [];
    for i := 0 to |raws|
      invariant lines == Mapped(Classify, raws[..i])
      invariant seenDetails <==> RegionIsOpen(lines)
      invariant result == Reading(agent, parseFloat, lines)
    {
      assert raws[..i+1] == raws[..i] + [raws[i]];
      MappedLast(Classify, raws[..i], raws[i]);
      result, seenDetails := TakeLine(result, seenDetails, raws[i], parseFloat, agent, lines);
      lines := lines + [Classify(raws[i])];
    }
    assert raws[..|raws|] == raws;
  }

  // ---- what the fields mean ----

  ghost predicate Answers<T(!new)>(pick: Line -> Option<T>, lines: seq<Line>, i: nat, x: T) {
    && i < |lines| && pick(lines[i]) == Some(x)
    && forall k :: i < k < |lines| ==> pick(lines[k]).None?
  }

  // A field holds x just if the last line with an answer says x, or no line has one and x is the default.
  lemma {:induction false} LastIff<T(!new)>(pick: Line -> Option<T>, lines: seq<Line>, default: T, x: T)
    ensures Last(pick, lines, default) == x
            <==> (exists i :: Answers(pick, lines, i, x))
                 || (x == default && forall k :: 0 <= k < |lines| ==> pick(lines[k]).None?)
  {
    if lines == [] {
    } else {
      var n := |lines| - 1;
      var front := lines[..n];
      LastIff(pick, front, default, x);
      if pick(lines[n]).Some? {
        if pick(lines[n]).value == x {
          assert Answers(pick, lines, n, x);
        }
      } else {
        forall i: nat
          ensures Answers(pick, front, i, x) <==> Answers(pick, lines, i, x)
        {
          if Answers(pick, front, i, x) {
            assert forall k :: i < k < |lines| ==> k == n || lines[k] == front[k];
          }
          if Answers(pick, lines, i, x) {
            assert i != n && forall k :: i < k < n ==> lines[k] == front[k];
          }
        }
      }
    }
  }

  predicate InUnitInterval(x: real) {
    0.0 <= x <= 1.0
  }

  // Whatever the response, every field of the result is legal.
  lemma {:induction false} ResultIsLegal(agent: string, parseFloat: string -> Float, response: string)
    ensures var r := Interpreted(agent, parseFloat, response);
            && r.verdict in {"PASS", "WARNING", "FAIL"} && r.severity in {"LOW", "MEDIUM", "HIGH", "CRITICAL"}
            && 0.0 <= r.confidence <= 1.0 && r.rationale != ""
  {
    var lines := Classified(response);
    LastSatisfies(VerdictIn, LegalVerdict, lines, FAIL);
    LastSatisfies(SeverityIn, LegalSeverity, lines, MEDIUM);
    ConfidenceInRange(parseFloat, lines);
  }

  lemma {:induction false} ConfidenceInRange(parseFloat: string -> Float, lines: seq<Line>)
    ensures InUnitInterval(Last(ConfidenceIn(parseFloat), lines, 0.5))
  {
    if lines == [] {
    } else {
      ConfidenceInRange(parseFloat, lines[..|lines|-1]);
      var said := ConfidenceSaid(parseFloat, lines[|lines|-1]);
      assert said.Some? ==> InUnitInterval(said.value);
    }
  }

  lemma {:induction false} LastSatisfies<T(!new)>(pick: Line -> Option<T>, legal: T -> bool, lines: seq<Line>,
          default: T)
    requires legal(default) && forall line :: pick(line).Some? ==> legal(pick(line).value)
    ensures legal(Last(pick, lines, default))
  {
    if lines == [] {
    } else {
      LastSatisfies(pick, legal, lines[..|lines|-1], default);
    }
  }

  // ---- labels in the text ----

  function LinesOf(response: string): seq<string> {
    Split(TrimSpace(response))
  }

  // What follows a label on its line.
  function TextAfter(raw: string, tag: string): string
    requires |tag| <= |TrimSpace(raw)|
  {
    TrimSpace(TrimSpace(raw)[|tag|..])
  }

  predicate HasTag(raw: string, tag: string) {
    tag <= ToUpper(TrimSpace(raw))
  }

  // The last line that starts with this label, in any letter case.
  ghost predicate LastTagged(response: string, i: nat, tag: string) {
    && i < |LinesOf(response)| && HasTag(LinesOf(response)[i], tag)
    && forall k :: i < k < |LinesOf(response)| ==> !HasTag(LinesOf(response)[k], tag)
  }

  // A line stands for a header exactly when it starts with that header's text.
  lemma {:induction false} TagIff(raw: string, tag: string, header: Header)
    requires (tag, header) in {("VERDICT:", VerdictHeader), ("CONFIDENCE:", ConfidenceHeader),
                               ("SEVERITY:", SeverityHeader), ("RATIONALE:", RationaleHeader),
                               ("DETAILS:", DetailsHeader)}
    ensures HasTag(raw, tag) <==> Classify(raw).Labelled? && Classify(raw).header == header
    ensures HasTag(raw, tag) ==> Classify(raw).text == TextAfter(raw, tag)
  {
    LabelShape(header);
    var upper := ToUpper(TrimSpace(raw));
    if HasTag(raw, tag) {
      assert upper[0] == tag[0];
    }
  }

  lemma {:induction false} LastTaggedIsLast(response: string, i: nat, tag: string, header: Header)
    requires LastTagged(response, i, tag)
    requires (tag, header) in {("VERDICT:", VerdictHeader), ("CONFIDENCE:", ConfidenceHeader),
                               ("SEVERITY:", SeverityHeader), ("RATIONALE:", RationaleHeader),
                               ("DETAILS:", DetailsHeader)}
    ensures !AllSpace(response)
    ensures var lines := Classified(response);
            && i < |lines| && lines[i] == Labelled(header, TextAfter(LinesOf(response)[i], tag))
            && forall k :: i < k < |lines| ==> !(lines[k].Labelled? && lines[k].header == header)
  {
    MappedAt(Classify, LinesOf(response));
    forall k | i <= k < |LinesOf(response)|
      ensures HasTag(LinesOf(response)[k], tag) <==>
              Classified(response)[k].Labelled? && Classified(response)[k].header == header
    {
      TagIff(LinesOf(response)[k], tag, header);
    }
    TagIff(LinesOf(response)[i], tag, header);
    BlankResponseIff(response);
  }

  // The last verdict line decides, if it names a verdict: passing before warning before failing.
  lemma {:induction false} LastVerdictDecides(agent: string, parseFloat: string -> Float, response: string, i: nat)
    requires LastTagged(response, i, "VERDICT:")
    ensures var said := ToUpper(TextAfter(LinesOf(response)[i], "VERDICT:"));
            var verdict := Interpreted(agent, parseFloat, response).verdict;
            && (Contains(said, "PASS") ==> verdict == "PASS")
            && (Contains(said, "WARNING") && !Contains(said, "PASS") ==> verdict == "WARNING")
            && (Contains(said, "FAIL") && !Contains(said, "PASS") && !Contains(said, "WARNING") ==> verdict == "FAIL")
  {
    LastTaggedIsLast(response, i, "VERDICT:", VerdictHeader);
    var lines := Classified(response);
    if VerdictIn(lines[i]).Some? {
      LastAt(VerdictIn, lines, i, FAIL);
    }
  }

  lemma {:induction false} LastConfidenceDecides(agent: string, parseFloat: string -> Float, response: string, i: nat)
    requires LastTagged(response, i, "CONFIDENCE:")
    ensures var said := parseFloat(TextAfter(LinesOf(response)[i], "CONFIDENCE:"));
            var confidence := Interpreted(agent, parseFloat, response).confidence;
            && (said.Number? && 0.0 <= said.value <= 1.0 ==> confidence == said.value)
            && (said.Number? && said.value < 0.0 ==> confidence == 0.0)
            && (said.Number? && said.value > 1.0 ==> confidence == 1.0)
  {
    LastTaggedIsLast(response, i, "CONFIDENCE:", ConfidenceHeader);
    var lines := Classified(response);
    if ConfidenceIn(parseFloat)(lines[i]).Some? {
      assert forall k :: i < k < |lines| ==> ConfidenceSaid(parseFloat, lines[k]).None?;
      LastAt(ConfidenceIn(parseFloat), lines, i, 0.5);
    }
  }

  lemma {:induction false} LastSeverityDecides(agent: string, parseFloat: string -> Float, response: string, i: nat)
    requires LastTagged(response, i, "SEVERITY:")
    ensures var said := ToUpper(TextAfter(LinesOf(response)[i], "SEVERITY:"));
            said in {"LOW", "MEDIUM", "HIGH", "CRITICAL"} ==>
              Interpreted(agent, parseFloat, response).severity == said
  {
    LastTaggedIsLast(response, i, "SEVERITY:", SeverityHeader);
    var lines := Classified(response);
    if SeverityIn(lines[i]).Some? {
      LastAt(SeverityIn, lines, i, MEDIUM);
    }
  }

  lemma {:induction false} LastRationaleDecides(agent: string, parseFloat: string -> Float, response: string, i: nat)
    requires LastTagged(response, i, "RATIONALE:")
    ensures var said := TextAfter(LinesOf(response)[i], "RATIONALE:");
            Interpreted(agent, parseFloat, response).rationale ==
            if said == "" then "No specific issues identified" else said
  {
    LastTaggedIsLast(response, i, "RATIONALE:", RationaleHeader);
    LastAt(RationaleIn, Classified(response), i, "");
  }

  lemma {:induction false} DetailIsKept(lines: seq<Line>, i: nat)
    requires i < |lines| && OpensDetails(lines[i]) && lines[i].text != ""
    ensures lines[i].text in DetailLines(lines)
  {
    var front := lines[..|lines|-1];
    if i == |lines| - 1 {
      assert InRegion(lines, i);
    } else {
      DetailIsKept(front, i);
    }
  }

  lemma {:induction false} LastDetailsAreKept(agent: string, parseFloat: string -> Float, response: string, i: nat)
    requires LastTagged(response, i, "DETAILS:")
    ensures var said := TextAfter(LinesOf(response)[i], "DETAILS:");
            said != "" ==> said in Interpreted(agent, parseFloat, response).details
  {
    LastTaggedIsLast(response, i, "DETAILS:", DetailsHeader);
    if Classified(response)[i].text != "" {
      DetailIsKept(Classified(response), i);
    }
  }

  ghost predicate Untagged(response: string) {
    forall k :: 0 <= k < |LinesOf(response)| ==>
                  var raw := LinesOf(response)[k];
                  && !HasTag(raw, "VERDICT:") && !HasTag(raw, "CONFIDENCE:") && !HasTag(raw, "SEVERITY:")
                  && !HasTag(raw, "RATIONALE:") && !HasTag(raw, "DETAILS:")
  }

  // A response without labels says nothing.
  lemma {:induction false} UntaggedSaysNothing(agent: string, parseFloat: string -> Float, response: string)
    requires Untagged(response)
    ensures Interpreted(agent, parseFloat, response) ==
            CheckResult(agent, "FAIL", 0.5, "MEDIUM", ToUpper(agent),
                        if AllSpace(response) then "Empty response from LLM" else "No specific issues identified", [])
  {
    var lines := Classified(response);
    MappedAt(Classify, LinesOf(response));
    forall k | 0 <= k < |lines|
      ensures !lines[k].Labelled?
    {
      var raw := LinesOf(response)[k];
      TagIff(raw, "VERDICT:", VerdictHeader);
      TagIff(raw, "CONFIDENCE:", ConfidenceHeader);
      TagIff(raw, "SEVERITY:", SeverityHeader);
      TagIff(raw, "RATIONALE:", RationaleHeader);
      TagIff(raw, "DETAILS:", DetailsHeader);
    }
    UnlabelledLines(agent, parseFloat, lines);
  }

  lemma {:induction false} UnlabelledLines(agent: string, parseFloat: string -> Float, lines: seq<Line>)
    requires forall k :: 0 <= k < |lines| ==> !lines[k].Labelled?
    ensures Reading(agent, parseFloat, lines) == Default(agent) && !RegionIsOpen(lines)
  {
    if lines == [] {
    } else {
      var front, last := lines[..|lines|-1], lines[|lines|-1];
      UnlabelledLines(agent, parseFloat, front);
      NothingRead(agent, parseFloat, front, last);
      RegionGrows(front, last);
      assert lines == front + [last];
    }
  }

  // ---- printing ----

  // A labelled line, in the layout the prompt asks for.
  function Entry(tag: string, text: string): string {
    if text == "" then tag else tag + " " + text
  }

  function Labelling(header: Header, text: string): string {
    Entry(header.Label(), text)
  }

  function FirstDetail(r: CheckResult): string {
    if r.details == [] then "" else r.details[0]
  }

  function FurtherDetails(r: CheckResult): seq<string> {
    if r.details == [] then [] else r.details[1..]
  }

  // What follows the labels, in the order of the headers.
  function Fields(r: CheckResult, confidence: string): (texts: seq<string>)
    ensures |texts| == |HEADERS|
  {
    [r.verdict, confidence, r.severity, r.rationale, FirstDetail(r)]
  }

  // The five lines the prompt asks for.
  function PrintedHead(r: CheckResult, confidence: string): (lines: seq<string>)
    ensures |lines| == |HEADERS|
    ensures forall k :: 0 <= k < |HEADERS| ==> lines[k] == Labelling(HEADERS[k], Fields(r, confidence)[k])
  {
    [Entry("VERDICT:", r.verdict), Entry("CONFIDENCE:", confidence), Entry("SEVERITY:", r.severity),
     Entry("RATIONALE:", r.rationale), Entry("DETAILS:", FirstDetail(r))]
  }

  function PrintedLines(r: CheckResult, confidence: string): seq<string> {
    PrintedHead(r, confidence) + FurtherDetails(r)
  }

  function Printed(r: CheckResult, confidence: string): string {
    Join(PrintedLines(r, confidence))
  }

  ghost predicate OneTrimmedLine(s: string) {
    OneLine(s) && Trimmed(s)
  }

  // A result the layout can carry; confidence is some text for its number.
  ghost predicate Printable(r: CheckResult, confidence: string, parseFloat: string -> Float) {
    && LegalVerdict(r.verdict) && LegalSeverity(r.severity) && InUnitInterval(r.confidence)
    && OneTrimmedLine(confidence) && parseFloat(confidence) == Number(r.confidence)
    && OneTrimmedLine(r.rationale) && r.category == ToUpper(r.agent)
    && forall k :: 0 <= k < |r.details| ==> OneTrimmedLine(r.details[k])
  }

  lemma {:induction false} LabelShape(header: Header)
    ensures var tag := header.Label();
            && |tag| > 1 && OneLine(tag) && Trimmed(tag) && ToUpper(tag) == tag
            && forall h: Header :: h != header ==> h.Label()[0] != tag[0]
  {
  }

  // Only its own label is a prefix of a labelled line.
  lemma {:induction false} HeaderOfLabelling(header: Header, text: string)
    ensures HeaderOf(Labelling(header, text)) == Some(header)
  {
    LabelShape(header);
    var line, tag := Labelling(header, text), header.Label();
    assert line[..|tag|] == tag;
    assert forall i :: 0 <= i < |tag| ==> ToUpper(line)[i] == ToUpper(tag)[i];
    assert HasPrefix(ToUpper(line), tag);
    assert ToUpper(line)[0] == tag[0];
  }

  lemma {:induction false} LabellingIsTrimmed(header: Header, text: string)
    requires text == "" || OneTrimmedLine(text)
    ensures OneTrimmedLine(Labelling(header, text))
  {
    LabelShape(header);
    var line := Labelling(header, text);
    if text != "" {
      assert line[|line|-1] == text[|text|-1];
    }
  }

  lemma {:induction false} SpaceIsTrimmed(text: string)
    requires Trimmed(text)
    ensures TrimSpace(" " + text) == text
  {
    var spaced := " " + text;
    assert spaced[1..] == text && IsSpace(spaced[0]);
    assert TrimLeft(spaced) == TrimLeft(text);
  }

  lemma {:induction false} TextOfLabelling(header: Header, text: string)
    requires text == "" || OneTrimmedLine(text)
    ensures TrimSpace(Labelling(header, text)[|header.Label()|..]) == text
  {
    var line, tag := Labelling(header, text), header.Label();
    if text == "" {
      assert line[|tag|..] == "";
    } else {
      assert line[|tag|..] == " " + text;
      SpaceIsTrimmed(text);
    }
  }

  lemma {:induction false} ClassifyLabelling(header: Header, text: string)
    requires text == "" || OneTrimmedLine(text)
    ensures Classify(Labelling(header, text)) == Labelled(header, text)
  {
    LabellingIsTrimmed(header, text);
    TrimmedIsKept(Labelling(header, text));
    HeaderOfLabelling(header, text);
    TextOfLabelling(header, text);
  }

  lemma {:induction false} ClassifyTrimmed(line: string)
    requires Trimmed(line)
    ensures HeaderOf(line).None? ==> Classify(line) == Plain(line)
    ensures HeaderOf(line).Some? ==> Classify(line).Labelled? && |Classify(line).text| < |line|
  {
    TrimmedIsKept(line);
    if HeaderOf(line).Some? {
      var rest := line[|HeaderOf(line).value.Label()|..];
      var before, after := TrimSpaceIsTheCore(rest);
      LabelShape(HeaderOf(line).value);
    }
  }

  lemma {:induction false} VerdictShape(verdict: string)
    requires LegalVerdict(verdict)
    ensures OneTrimmedLine(verdict) && ToUpper(verdict) == verdict
  {
  }

  lemma {:induction false} SeverityShape(severity: string)
    requires LegalSeverity(severity)
    ensures OneTrimmedLine(severity) && ToUpper(severity) == severity
  {
  }

  lemma {:induction false} NotContained(s: string, sub: string)
    requires sub != [] && sub[0] !in s
    ensures !Contains(s, sub)
  {
    if s == [] {
    } else {
      NotContained(s[1..], sub);
    }
  }

  lemma {:induction false} VerdictReads(verdict: string)
    requires LegalVerdict(verdict)
    ensures VerdictIn(Labelled(VerdictHeader, verdict)) == Some(verdict)
  {
    VerdictShape(verdict);
    if verdict != PASS {
      NotContained(verdict, PASS);
      if verdict == FAIL {
        NotContained(verdict, WARNING);
      }
    }
  }

  lemma {:induction false} LastAt<T(!new)>(pick: Line -> Option<T>, lines: seq<Line>, i: nat, default: T)
    requires i < |lines| && pick(lines[i]).Some? && forall k :: i < k < |lines| ==> pick(lines[k]).None?
    ensures Last(pick, lines, default) == pick(lines[i]).value
  {
    if i == |lines| - 1 {
    } else {
      LastAt(pick, lines[..|lines|-1], i, default);
    }
  }

  // The first lines carry the labels in order.
  ghost predicate HasHead(lines: seq<Line>, r: CheckResult, confidence: string) {
    && |lines| >= |HEADERS|
    && forall k :: 0 <= k < |HEADERS| ==> lines[k] == Labelled(HEADERS[k], Fields(r, confidence)[k])
  }

  lemma {:induction false} VerdictOfHead(lines: seq<Line>, r: CheckResult, confidence: string)
    requires HasHead(lines, r, confidence) && LegalVerdict(r.verdict)
    requires forall k :: 5 <= k < |lines| ==> lines[k].Plain?
    ensures Last(VerdictIn, lines, FAIL) == r.verdict
  {
    VerdictReads(r.verdict);
    LastAt(VerdictIn, lines, 0, FAIL);
  }

  lemma {:induction false} ConfidenceOfHead(lines: seq<Line>, r: CheckResult,
          confidence: string, parseFloat: string -> Float)
    requires HasHead(lines, r, confidence)
    requires InUnitInterval(r.confidence) && parseFloat(confidence) == Number(r.confidence)
    requires forall k :: 5 <= k < |lines| ==> lines[k].Plain?
    ensures Last(ConfidenceIn(parseFloat), lines, 0.5) == r.confidence
  {
    assert ConfidenceSaid(parseFloat, lines[1]) == Some(r.confidence);
    assert forall k :: 1 < k < |lines| ==> ConfidenceSaid(parseFloat, lines[k]).None?;
    LastAt(ConfidenceIn(parseFloat), lines, 1, 0.5);
  }

  lemma {:induction false} SeverityOfHead(lines: seq<Line>, r: CheckResult, confidence: string)
    requires HasHead(lines, r, confidence) && LegalSeverity(r.severity)
    requires forall k :: 5 <= k < |lines| ==> lines[k].Plain?
    ensures Last(SeverityIn, lines, MEDIUM) == r.severity
  {
    SeverityShape(r.severity);
    assert SeverityIn(lines[2]) == Some(r.severity);
    LastAt(SeverityIn, lines, 2, MEDIUM);
  }

  lemma {:induction false} RationaleOfHead(lines: seq<Line>, r: CheckResult, confidence: string)
    requires HasHead(lines, r, confidence)
    requires forall k :: 5 <= k < |lines| ==> lines[k].Plain?
    ensures Last(RationaleIn, lines, "") == r.rationale
  {
    LastAt(RationaleIn, lines, 3, "");
  }

  // Reading details line by line: what was collected, and whether a region is open.
  function Scan(lines: seq<Line>): (seq<string>, bool)
  {
    if lines == [] then ([], false) else ScanStep(Scan(lines[..|lines|-1]), lines[|lines|-1])
  }

  function ScanStep(sofar: (seq<string>, bool), line: Line): (seq<string>, bool) {
    var open := OpensDetails(line) || (line.Plain? && sofar.1);
    (if open && line.text != "" then sofar.0 + [line.text] else sofar.0, open)
  }

  lemma {:induction false} ScanIs(lines: seq<Line>)
    ensures Scan(lines) == (DetailLines(lines), RegionIsOpen(lines))
  {
    if lines == [] {
    } else {
      var front, last := lines[..|lines|-1], lines[|lines|-1];
      ScanIs(front);
      ScanStepIs(front, last);
      assert lines == front + [last];
    }
  }

  lemma {:induction false} ScanStepIs(lines: seq<Line>, line: Line)
    ensures ScanStep((DetailLines(lines), RegionIsOpen(lines)), line)
            == (DetailLines(lines + [line]), RegionIsOpen(lines + [line]))
  {
    DetailsGrow(lines, line);
    RegionGrows(lines, line);
    assert DetailLines(lines) + [] == DetailLines(lines);
  }

  lemma {:induction false} ScanGrows(lines: seq<Line>, line: Line)
    ensures Scan(lines + [line]) == ScanStep(Scan(lines), line)
  {
    assert (lines + [line])[..|lines|] == lines;
  }

  lemma {:induction false} ScanOfHead(lines: seq<Line>, r: CheckResult, confidence: string)
    requires HasHead(lines, r, confidence)
    ensures Scan(lines[..5]) == (if FirstDetail(r) == "" then [] else [FirstDetail(r)], true)
  {
    assert lines[..1] == [] + [lines[0]] && lines[..2] == lines[..1] + [lines[1]]
           && lines[..3] == lines[..2] + [lines[2]];
    assert lines[..4] == lines[..3] + [lines[3]] && lines[..5] == lines[..4] + [lines[4]];
    ScanGrows([], lines[0]);
    ScanGrows(lines[..1], lines[1]);
    ScanGrows(lines[..2], lines[2]);
    ScanGrows(lines[..3], lines[3]);
    assert Scan(lines[..4]) == ([], false);
    ScanGrows(lines[..4], lines[4]);
    assert [] + [FirstDetail(r)] == [FirstDetail(r)];
  }

  function ScanFrom(sofar: (seq<string>, bool), rest: seq<Line>): (seq<string>, bool)
    decreases |rest|
  {
    if rest == [] then sofar else ScanFrom(ScanStep(sofar, rest[0]), rest[1..])
  }

  lemma {:induction false} ScanAppend(lines: seq<Line>, rest: seq<Line>)
    ensures Scan(lines + rest) == ScanFrom(Scan(lines), rest)
    decreases |rest|
  {
    if rest == [] {
      assert lines + rest == lines;
    } else {
      ScanGrows(lines, rest[0]);
      ScanAppend(lines + [rest[0]], rest[1..]);
      assert lines + rest == lines + [rest[0]] + rest[1..];
    }
  }

  // Unlabelled text in an open region is read as details, whole and in order.
  lemma {:induction false} PlainIsKept(sofar: (seq<string>, bool), rest: seq<Line>, texts: seq<string>)
    requires sofar.1 && |rest| == |texts|
    requires forall k :: 0 <= k < |rest| ==> rest[k] == Plain(texts[k]) && texts[k] != ""
    ensures ScanFrom(sofar, rest) == (sofar.0 + texts, true)
    decreases |rest|
  {
    if rest == [] {
      assert sofar.0 + texts == sofar.0;
    } else {
      PlainIsKept(ScanStep(sofar, rest[0]), rest[1..], texts[1..]);
      assert sofar.0 + [texts[0]] + texts[1..] == sofar.0 + texts;
    }
  }

  function Weight(texts: seq<string>): nat
  {
    if texts == [] then 0 else |texts[0]| + Weight(texts[1..])
  }

  lemma {:induction false} WeightGrows(texts: seq<string>, text: string)
    ensures Weight(texts + [text]) == Weight(texts) + |text|
  {
    if texts == [] {
      assert texts + [text] == [text];
    } else {
      WeightGrows(texts[1..], text);
      assert (texts + [text])[1..] == texts[1..] + [text];
    }
  }

  function TextOf(line: Line): string {
    if line.Blank? then "" else line.text
  }

  lemma {:induction false} StepWeighs(sofar: (seq<string>, bool), line: Line)
    ensures Weight(ScanStep(sofar, line).0) <= Weight(sofar.0) + |TextOf(line)|
  {
    WeightGrows(sofar.0, TextOf(line));
  }

  lemma {:induction false} WeightAppend(a: seq<string>, b: seq<string>)
    ensures Weight(a + b) == Weight(a) + Weight(b)
  {
    if a == [] {
      assert a + b == b;
    } else {
      WeightAppend(a[1..], b);
      assert (a + b)[1..] == a[1..] + b;
    }
  }

  // Lines give no more text than they carry, and less if one of them is shorter.
  lemma {:induction false} ScanWeighs(sofar: (seq<string>, bool), rest: seq<Line>, texts: seq<string>, k: nat)
    requires |rest| == |texts| && forall i :: 0 <= i < |rest| ==> |TextOf(rest[i])| <= |texts[i]|
    ensures Weight(ScanFrom(sofar, rest).0) <= Weight(sofar.0) + Weight(texts)
    ensures k < |rest| && |TextOf(rest[k])| < |texts[k]| ==>
              Weight(ScanFrom(sofar, rest).0) < Weight(sofar.0) + Weight(texts)
    decreases |rest|
  {
    if rest == [] {
    } else {
      StepWeighs(sofar, rest[0]);
      ScanWeighs(ScanStep(sofar, rest[0]), rest[1..], texts[1..], if k == 0 then |rest| else k - 1);
    }
  }

  // ---- the round trip ----

  lemma {:induction false} FieldsAreTrimmed(r: CheckResult, confidence: string, parseFloat: string -> Float, k: nat)
    requires Printable(r, confidence, parseFloat) && k < |HEADERS|
    ensures var text := Fields(r, confidence)[k]; text == "" || OneTrimmedLine(text)
  {
    VerdictShape(r.verdict);
    SeverityShape(r.severity);
  }

  lemma {:induction false} PrintedLinesAreTrimmed(r: CheckResult, confidence: string, parseFloat: string -> Float)
    requires Printable(r, confidence, parseFloat)
    ensures forall line :: line in PrintedLines(r, confidence) ==> OneTrimmedLine(line)
  {
    forall k | 0 <= k < |HEADERS|
      ensures OneTrimmedLine(PrintedHead(r, confidence)[k])
    {
      FieldsAreTrimmed(r, confidence, parseFloat, k);
      LabellingIsTrimmed(HEADERS[k], Fields(r, confidence)[k]);
    }
  }

  lemma {:induction false} PrintedIsRead(r: CheckResult, confidence: string, parseFloat: string -> Float)
    requires Printable(r, confidence, parseFloat)
    ensures Classified(Printed(r, confidence)) == Mapped(Classify, PrintedLines(r, confidence))
    ensures !AllSpace(Printed(r, confidence))
  {
    var lines, text := PrintedLines(r, confidence), Printed(r, confidence);
    PrintedLinesAreTrimmed(r, confidence, parseFloat);
    assert lines[0] in lines && lines[|lines|-1] in lines;
    SplitJoin(lines);
    JoinIsTrimmed(lines);
    TrimmedIsKept(text);
    assert text[0] in text;
  }

  lemma {:induction false} HeadIsClassified(r: CheckResult, confidence: string, parseFloat: string -> Float)
    requires Printable(r, confidence, parseFloat)
    ensures |Mapped(Classify, PrintedHead(r, confidence))| == |HEADERS|
    ensures HasHead(Mapped(Classify, PrintedHead(r, confidence)), r, confidence)
  {
    MappedAt(Classify, PrintedHead(r, confidence));
    forall k | 0 <= k < |HEADERS|
      ensures Classify(PrintedHead(r, confidence)[k]) == Labelled(HEADERS[k], Fields(r, confidence)[k])
    {
      FieldsAreTrimmed(r, confidence, parseFloat, k);
      ClassifyLabelling(HEADERS[k], Fields(r, confidence)[k]);
    }
  }

  // Without labels among the further details, all fields are read back.
  lemma {:induction false} ReadsBack(r: CheckResult, confidence: string, parseFloat: string -> Float, lines: seq<Line>)
    requires Printable(r, confidence, parseFloat) && HasHead(lines, r, confidence)
    requires forall k :: 5 <= k < |lines| ==> lines[k].Plain?
    requires DetailLines(lines) == r.details
    ensures Reading(r.agent, parseFloat, lines) == r
  {
    VerdictOfHead(lines, r, confidence);
    ConfidenceOfHead(lines, r, confidence, parseFloat);
    SeverityOfHead(lines, r, confidence);
    RationaleOfHead(lines, r, confidence);
  }

  ghost predicate NoneLabelled(texts: seq<string>) {
    forall k :: 0 <= k < |texts| ==> HeaderOf(texts[k]).None?
  }

  ghost predicate AllTrimmed(texts: seq<string>) {
    forall k :: 0 <= k < |texts| ==> Trimmed(texts[k])
  }

  // Of the further details, all are read back as they are just if none starts with a label.
  lemma {:induction false} RestReadsBackIff(sofar: (seq<string>, bool), rest: seq<Line>, texts: seq<string>)
    requires sofar.1 && AllTrimmed(texts) && rest == Mapped(Classify, texts)
    ensures ScanFrom(sofar, rest).0 == sofar.0 + texts <==> NoneLabelled(texts)
  {
    MappedAt(Classify, texts);
    forall k | 0 <= k < |texts|
      ensures HeaderOf(texts[k]).None? ==> rest[k] == Plain(texts[k])
      ensures |TextOf(rest[k])| <= |texts[k]|
      ensures HeaderOf(texts[k]).Some? ==> |TextOf(rest[k])| < |texts[k]|
    {
      ClassifyTrimmed(texts[k]);
    }
    if k :| 0 <= k < |texts| && HeaderOf(texts[k]).Some? {
      ScanWeighs(sofar, rest, texts, k);
      WeightAppend(sofar.0, texts);
    } else {
      PlainIsKept(sofar, rest, texts);
    }
  }

  lemma {:induction false} DetailsOfParts(front: seq<Line>, rest: seq<Line>)
    ensures DetailLines(front + rest) == ScanFrom(Scan(front), rest).0
  {
    ScanIs(front + rest);
    ScanAppend(front, rest);
  }

  lemma {:induction false} DetailsRejoin(r: CheckResult)
    requires r.details != [] ==> FirstDetail(r) != ""
    ensures (if FirstDetail(r) == "" then [] else [FirstDetail(r)]) + FurtherDetails(r) == r.details
  {
  }

  lemma {:induction false} DetailsReadBackIff(r: CheckResult, confidence: string, head: seq<Line>)
    requires HasHead(head, r, confidence) && |head| == 5
    requires AllTrimmed(FurtherDetails(r)) && (r.details != [] ==> FirstDetail(r) != "")
    ensures DetailLines(head + Mapped(Classify, FurtherDetails(r))) == r.details <==> NoneLabelled(FurtherDetails(r))
  {
    var texts := FurtherDetails(r);
    assert head[..5] == head;
    ScanOfHead(head, r, confidence);
    DetailsOfParts(head, Mapped(Classify, texts));
    RestReadsBackIff(Scan(head), Mapped(Classify, texts), texts);
    DetailsRejoin(r);
  }

  lemma {:induction false} PrintedParts(r: CheckResult, confidence: string, parseFloat: string -> Float)
    requires Printable(r, confidence, parseFloat)
    ensures Classified(Printed(r, confidence))
            == Mapped(Classify, PrintedHead(r, confidence)) + Mapped(Classify, FurtherDetails(r))
    ensures !AllSpace(Printed(r, confidence))
  {
    PrintedIsRead(r, confidence, parseFloat);
    MappedAppend(Classify, PrintedHead(r, confidence), FurtherDetails(r));
  }

  lemma {:induction false} PrintedDetailsIff(r: CheckResult, confidence: string, parseFloat: string -> Float)
    requires Printable(r, confidence, parseFloat)
    ensures DetailLines(Classified(Printed(r, confidence))) == r.details <==> NoneLabelled(FurtherDetails(r))
  {
    PrintedParts(r, confidence, parseFloat);
    HeadIsClassified(r, confidence, parseFloat);
    DetailsReadBackIff(r, confidence, Mapped(Classify, PrintedHead(r, confidence)));
  }

  lemma {:induction false} PrintedReads(r: CheckResult, confidence: string, parseFloat: string -> Float)
    requires Printable(r, confidence, parseFloat) && NoneLabelled(FurtherDetails(r))
    ensures Reading(r.agent, parseFloat, Classified(Printed(r, confidence))) == r
  {
    PrintedDetailsIff(r, confidence, parseFloat);
    PrintedParts(r, confidence, parseFloat);
    HeadIsClassified(r, confidence, parseFloat);
    RestIsPlain(FurtherDetails(r));
    ReadsBack(r, confidence, parseFloat, Classified(Printed(r, confidence)));
  }

  // Parsing undoes printing exactly when no detail after the first starts with a label.
  lemma {:induction false} PrintParseIff(r: CheckResult, confidence: string, parseFloat: string -> Float)
    requires Printable(r, confidence, parseFloat)
    ensures Interpreted(r.agent, parseFloat, Printed(r, confidence)) == r <==> NoneLabelled(FurtherDetails(r))
  {
    PrintedParts(r, confidence, parseFloat);
    PrintedDetailsIff(r, confidence, parseFloat);
    if NoneLabelled(FurtherDetails(r)) {
      PrintedReads(r, confidence, parseFloat);
    } else {
      InterpretedDetails(r.agent, parseFloat, Printed(r, confidence));
    }
  }

  lemma {:induction false} RestIsPlain(texts: seq<string>)
    requires AllTrimmed(texts) && NoneLabelled(texts)
    ensures forall k :: 0 <= k < |Mapped(Classify, texts)| ==> Mapped(Classify, texts)[k].Plain?
  {
    MappedAt(Classify, texts);
    forall k | 0 <= k < |texts|
      ensures Classify(texts[k]).Plain?
    {
      ClassifyTrimmed(texts[k]);
    }
  }

  lemma {:induction false} InterpretedDetails(agent: string, parseFloat: string -> Float, response: string)
    requires !AllSpace(response)
    ensures Interpreted(agent, parseFloat, response).details == DetailLines(Classified(response))
  {
  }
}
