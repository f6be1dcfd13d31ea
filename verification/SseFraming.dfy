/** Server-sent events on the wire: what SSEData writes (internal/pkg/response/response.go:48-64)
    and what readSSE recognises (internal/infrastructure/llm/litellm/client.go:115-139). */
module SseFraming {

  const PREFIX := "data: "
  const DONE := "[DONE]"

  /** unicode.IsSpace. */
  predicate IsSpace(c: char) {
    || c in {'\t', '\n', '\U{000B}', '\U{000C}', '\r', ' ', '\U{0085}', '\U{00A0}', '\U{1680}'}
    || '\U{2000}' <= c <= '\U{200A}'
    || c in {'\U{2028}', '\U{2029}', '\U{202F}', '\U{205F}', '\U{3000}'}
  }

  function TrimRight(s: string): (r: string)
    ensures r <= s && (r != "" ==> !IsSpace(r[|r| - 1]))
  {
    if s != "" && IsSpace(s[|s| - 1]) then TrimRight(s[..|s| - 1]) else s
  }

  function TrimLeft(s: string): string {
    if s != "" && IsSpace(s[0]) then TrimLeft(s[1..]) else s
  }

  function TrimSpace(s: string): string {
    TrimRight(TrimLeft(s))
  }

  // ----- writing -----

  function FrameOne(payload: string): string {
    PREFIX + payload + "\n\n"
  }

  function Frame(payloads: seq<string>): string {
    if payloads == [] then "" else FrameOne(payloads[0]) + Frame(payloads[1..])
  }

  // ----- reading -----

  function IndexOf(s: string, c: char): (i: nat)
    ensures i <= |s| && c !in s[..i] && (i < |s| ==> s[i] == c)
  {
    if s == "" || s[0] == c then 0 else 1 + IndexOf(s[1..], c)
  }

  /** The complete lines of a text, each with its newline; what follows the last newline is never seen. */
  function Lines(text: string): seq<string> {
    var i := IndexOf(text, '\n');
    if i == |text| then [] else [text[..i + 1]] + Lines(text[i + 1..])
  }

  datatype Line = Skip | Finish | Payload(data: string)

  function Classify(line: string): Line {
    var l := TrimSpace(line);
    if !(PREFIX <= l) then Skip
    else if l[|PREFIX|..] == DONE then Finish
    else Payload(l[|PREFIX|..])
  }

  /** The payloads read from lines, up to the one that finishes the stream. */
  function PayloadsOf(lines: seq<string>): seq<string> {
    if lines == [] then []
    else
      match Classify(lines[0])
      case Skip => PayloadsOf(lines[1..])
      case Finish => []
      case Payload(data) => [data] + PayloadsOf(lines[1..])
  }

  function ReadBack(text: string): seq<string> {
    PayloadsOf(Lines(text))
  }

  /** The two texts both sides agree on, letter by letter. */
  lemma WireFormat(payload: string)
    ensures Frame([payload]) == "data: " + payload + "\n\n"
    ensures Classify("data: [DONE]\n") == Finish
  {
    assert [payload][1..] == [];
    assert Frame([payload]) == FrameOne(payload) + Frame([]);
    DoneIsRead();
  }

  lemma DoneIsRead()
    ensures Classify("data: [DONE]\n") == Finish
  {
    var line := "data: [DONE]\n";
    assert line[..|line| - 1] == "data: [DONE]";
    assert TrimLeft(line) == line;
    assert TrimRight("data: [DONE]") == "data: [DONE]";
    assert TrimSpace(line) == "data: [DONE]";
    assert "data: [DONE]"[|PREFIX|..] == DONE;
  }

  // ----- the round trip -----

  /** Payloads that survive: not empty, on one line, without trailing space, and not the end marker. */
  predicate Clean(p: string) {
    p != "" && '\n' !in p && !IsSpace(p[|p| - 1]) && p != DONE
  }

  lemma LineFirst(line: string, rest: string)
    requires '\n' !in line
    ensures Lines(line + "\n" + rest) == [line + "\n"] + Lines(rest)
  {
    var text := line + "\n" + rest;
    var i := IndexOf(text, '\n');
    assert text[|line|] == '\n';
    assert forall k :: 0 <= k < |line| ==> text[k] == line[k];
    assert i == |line|;
    assert text[..i + 1] == line + "\n" && text[i + 1..] == rest;
  }

  lemma PayloadLine(p: string)
    requires Clean(p)
    ensures Classify(PREFIX + p + "\n") == Payload(p)
  {
    var line := PREFIX + p + "\n";
    assert line[0] == 'd';
    assert TrimLeft(line) == line;
    assert line[..|line| - 1] == PREFIX + p;
    assert TrimRight(PREFIX + p) == PREFIX + p;
    assert (PREFIX + p)[|PREFIX|..] == p;
  }

  lemma BlankLine()
    ensures Classify("\n") == Skip
  {
    assert "\n"[1..] == "";
    assert TrimSpace("\n") == "";
  }

  lemma FrameLines(p: string, rest: string)
    requires '\n' !in p
    ensures Lines(FrameOne(p) + rest) == [PREFIX + p + "\n", "\n"] + Lines(rest)
  {
    hide Lines;
    assert '\n' !in PREFIX + p by {
      assert '\n' !in PREFIX;
    }
    assert FrameOne(p) + rest == (PREFIX + p) + "\n" + ("\n" + rest);
    LineFirst(PREFIX + p, "\n" + rest);
    LineFirst("", rest);
    assert "" + "\n" + rest == "\n" + rest;
    assert "" + "\n" == "\n";
  }

  lemma ReadFramed(p: string, lines: seq<string>)
    requires Clean(p)
    ensures PayloadsOf([PREFIX + p + "\n", "\n"] + lines) == [p] + PayloadsOf(lines)
  {
    hide Classify;
    PayloadLine(p);
    BlankLine();
    var all := [PREFIX + p + "\n", "\n"] + lines;
    assert all[1..] == ["\n"] + lines;
    assert all[1..][1..] == lines;
  }

  lemma {:induction false} CleanSurvives(ps: seq<string>)
    requires forall p :: p in ps ==> Clean(p)
    ensures ReadBack(Frame(ps)) == ps
  {
    if ps == [] {
      assert Lines("") == [];
    } else {
      hide Lines, PayloadsOf, FrameOne;
      assert Clean(ps[0]);
      CleanSurvives(ps[1..]);
      FrameLines(ps[0], Frame(ps[1..]));
      ReadFramed(ps[0], Lines(Frame(ps[1..])));
    }
  }

  lemma {:induction false} TrimLeftSuffix(s: string)
    ensures |TrimLeft(s)| <= |s| && TrimLeft(s) == s[|s| - |TrimLeft(s)|..]
  {
    if s != "" && IsSpace(s[0]) {
      TrimLeftSuffix(s[1..]);
    }
  }

  /** Trimming takes the newline that ends a line, and there is no other. */
  lemma TrimmedHasNoNewline(line: string)
    requires line != "" && '\n' !in line[..|line| - 1] && line[|line| - 1] == '\n'
    ensures '\n' !in TrimSpace(line)
  {
    hide TrimLeft, TrimRight;
    var left := TrimLeft(line);
    var l := TrimRight(left);
    TrimLeftSuffix(line);
    if l != "" {
      assert IsSpace('\n') && l[|l| - 1] != '\n';
      assert left[|left| - 1] == '\n' && l <= left && l != left;
      assert l == line[..|line| - 1][|line| - |left|..|line| - |left| + |l|];
    }
  }

  lemma ReadPayloadIsClean(line: string)
    requires line != "" && '\n' !in line[..|line| - 1] && line[|line| - 1] == '\n'
    requires Classify(line).Payload?
    ensures Clean(Classify(line).data)
  {
    hide TrimLeft, TrimRight, IsSpace;
    TrimmedHasNoNewline(line);
    PayloadOfTrimmed(TrimSpace(line));
  }

  lemma PayloadOfTrimmed(l: string)
    requires PREFIX <= l && !IsSpace(l[|l| - 1]) && '\n' !in l && l[|PREFIX|..] != DONE
    ensures Clean(l[|PREFIX|..])
  {
    assert PREFIX[5] == ' ' && l[5] == PREFIX[5];
    assert |l| > |PREFIX|;
  }

  lemma {:induction false} LinesEndOnce(text: string)
    ensures forall line :: line in Lines(text) ==>
              line != "" && '\n' !in line[..|line| - 1] && line[|line| - 1] == '\n'
  {
    var i := IndexOf(text, '\n');
    if i < |text| {
      LinesEndOnce(text[i + 1..]);
      assert text[..i + 1][..i] == text[..i];
    }
  }

  lemma {:induction false} PayloadsAreClean(lines: seq<string>)
    requires forall line :: line in lines ==>
               line != "" && '\n' !in line[..|line| - 1] && line[|line| - 1] == '\n'
    ensures forall p :: p in PayloadsOf(lines) ==> Clean(p)
  {
    if lines != [] {
      if Classify(lines[0]).Payload? {
        ReadPayloadIsClean(lines[0]);
      }
      PayloadsAreClean(lines[1..]);
    }
  }

  /** Reading back what was framed gives the same list exactly when every payload is clean. */
  lemma RoundTripIff(ps: seq<string>)
    ensures ReadBack(Frame(ps)) == ps <==> forall p :: p in ps ==> Clean(p)
  {
    if forall p :: p in ps ==> Clean(p) {
      CleanSurvives(ps);
    } else {
      LinesEndOnce(Frame(ps));
      PayloadsAreClean(Lines(Frame(ps)));
    }
  }
}
