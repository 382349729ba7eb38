/** The here-documents of a start script (packages/container-runtime/src/run-protocol.ts:217-252): the agent
    command and the supervisor travel as text inside the script, and the shell reads them back out as section
    2.7.4 of the POSIX Shell Command Language says, with a quoted delimiter: nothing expands. */
module HereDoc {
  import opened Lines
  import opened RunSpec

  const NL: char := '\n'
  const AGENT_EOF: string := "__OPTIO_AGENT_SH__"
  const SUPERVISOR_EOF: string := "__OPTIO_SUPERVISOR_SH__"

  /** The redirections the two documents follow. */
  const CAT_RUN_DIR: string := "cat > \"$OPTIO_RUN_DIR\"/"
  const CAT_AGENT: string := CAT_RUN_DIR + "agent.sh <<'" + AGENT_EOF + "'"
  const CAT_SUPERVISOR: string := CAT_RUN_DIR + "supervisor.sh <<'" + SUPERVISOR_EOF + "'"

  /** JavaScript's `lines.join("\n")`. */
  function JoinLines(lines: seq<string>): string {
    if lines == [] then [] else Join(lines, NL)
  }

  /** The documents and what follows them in a start script; `None` when the agent command is rejected. */
  function SuperviseAgent(agentLines: seq<string>, supervisor: string, rest: seq<string>): Option<seq<string>> {
    var agent := JoinLines(agentLines);
    if Includes(agent, AGENT_EOF) || Includes(agent, SUPERVISOR_EOF) then None
    else Some([CAT_AGENT, agent, AGENT_EOF, CAT_SUPERVISOR, supervisor, SUPERVISOR_EOF] + rest)
  }

  /** The shell reads a here-document: the lines up to the first that is the delimiter, and the lines after
      it. Without one, the document runs to the end of the script. */
  function ReadHereDoc(lines: seq<string>, delimiter: string): (r: (seq<string>, seq<string>)) {
    if lines == [] then ([], [])
    else if lines[0] == delimiter then ([], lines[1..])
    else
      var (body, rest) := ReadHereDoc(lines[1..], delimiter);
      ([lines[0]] + body, rest)
  }

  /** What the two `cat` commands at the front of a script write, and the lines left to run. */
  datatype Written = Written(agent: string, supervisor: string, rest: seq<string>)

  function RunCats(script: string): Option<Written> {
    var lines := Split(script, NL);
    if lines[0] != CAT_AGENT then None
    else
      var (agent, after) := ReadHereDoc(lines[1..], AGENT_EOF);
      if after == [] || after[0] != CAT_SUPERVISOR then None
      else
        var (supervisor, rest) := ReadHereDoc(after[1..], SUPERVISOR_EOF);
        Some(Written(Unlines(agent, NL), Unlines(supervisor, NL), rest))
  }

  lemma {:induction false} ReadsBody(body: seq<string>, delimiter: string, rest: seq<string>)
    ensures delimiter !in body ==> ReadHereDoc(body + [delimiter] + rest, delimiter) == (body, rest)
    ensures delimiter in body ==> |ReadHereDoc(body + [delimiter] + rest, delimiter).0| < |body|
  {
    var all := body + [delimiter] + rest;
    if body == [] {
      assert all == [delimiter] + rest && all[1..] == rest;
    } else {
      assert all[1..] == body[1..] + [delimiter] + rest;
      assert body == [body[0]] + body[1..];
      ReadsBody(body[1..], delimiter, rest);
    }
  }

  /** A text includes each of its lines. */
  lemma {:induction false} LineIncluded(text: string, line: string)
    requires line in Split(text, NL)
    ensures Includes(text, line)
  {
    var parts := Split(text, NL);
    SplitParts(text, NL);
    var i :| 0 <= i < |parts| && parts[i] == line;
    var at := PartOffset(parts, i, NL);
    assert PartAt(text, line, at);
  }

  /** A start is refused iff one of the delimiters stands somewhere in the agent command, lines joined. */
  lemma AcceptedIff(agentLines: seq<string>, supervisor: string, rest: seq<string>)
    ensures SuperviseAgent(agentLines, supervisor, rest).None? <==>
            exists i: nat, eof :: eof in {AGENT_EOF, SUPERVISOR_EOF} && PartAt(JoinLines(agentLines), eof, i)
  {
    var agent := JoinLines(agentLines);
    forall i: nat, eof | eof in {AGENT_EOF, SUPERVISOR_EOF} && PartAt(agent, eof, i)
      ensures i <= |agent| && Includes(agent, eof)
    {
    }
  }

  /** What is accepted has neither delimiter among its lines. */
  lemma {:induction false} AcceptedClear(agentLines: seq<string>, supervisor: string, rest: seq<string>)
    requires SuperviseAgent(agentLines, supervisor, rest).Some?
    ensures AGENT_EOF !in Split(JoinLines(agentLines), NL)
  {
    if AGENT_EOF in Split(JoinLines(agentLines), NL) {
      LineIncluded(JoinLines(agentLines), AGENT_EOF);
    }
  }

  /** The physical lines of a script, when its entries are texts of one or more lines. */
  lemma {:induction false} SplitEntries(entry: string, rest: seq<string>)
    requires rest != []
    ensures Split(Join([entry] + rest, NL), NL) == Split(entry, NL) + Split(Join(rest, NL), NL)
  {
    assert ([entry] + rest)[1..] == rest;
    var tail := Join(rest, NL);
    var parts := Split(entry, NL);
    SplitParts(entry, NL);
    SplitParts(tail, NL);
    JoinUnlines(parts, Split(tail, NL));
    SplitJoin(parts + Split(tail, NL), NL);
  }

  lemma {:induction false} JoinUnlines(parts: seq<string>, back: seq<string>)
    requires |parts| > 0 && |back| > 0
    ensures Join(parts + back, NL) == Join(parts, NL) + [NL] + Join(back, NL)
    ensures Unlines(parts, NL) == Join(parts, NL) + [NL]
  {
    JoinAppend(parts, back, NL);
    if |parts| == 1 {
      assert parts == [parts[0]];
    } else {
      JoinUnlines(parts[1..], back);
    }
  }

  /** One document, whatever its text: `text`, its delimiter, and the script's other entries. */
  lemma {:induction false} DocumentLines(text: string, delimiter: string, rest: seq<string>)
    requires rest != [] && NL !in delimiter
    ensures Split(Join([text, delimiter] + rest, NL), NL) == Split(text, NL) + [delimiter] + Split(Join(rest, NL), NL)
    ensures Unlines(Split(text, NL), NL) == text + [NL]
  {
    var after := [delimiter] + rest;
    SplitEntries(text, after);
    SplitEntries(delimiter, rest);
    SplitLine(delimiter, [], NL);
    assert [text, delimiter] + rest == [text] + after;
    Associative(Split(text, NL), [delimiter], Split(Join(rest, NL), NL));
    SplitParts(text, NL);
    JoinUnlines(Split(text, NL), [[]]);
  }

  /** A document is read back whole iff its delimiter is none of its lines. */
  lemma {:induction false} DocumentReadBackIff(text: string, delimiter: string, rest: seq<string>)
    requires rest != [] && NL !in delimiter
    ensures var read := ReadHereDoc(Split(Join([text, delimiter] + rest, NL), NL), delimiter);
            && (delimiter !in Split(text, NL) ==> read == (Split(text, NL), Split(Join(rest, NL), NL)))
            && (Unlines(read.0, NL) == text + [NL] <==> delimiter !in Split(text, NL))
  {
    DocumentLines(text, delimiter, rest);
    var body := Split(text, NL);
    ReadsBody(body, delimiter, Split(Join(rest, NL), NL));
    ReadIsPrefix(body + [delimiter] + Split(Join(rest, NL), NL), delimiter);
    if delimiter in body {
      var read := ReadHereDoc(body + [delimiter] + Split(Join(rest, NL), NL), delimiter).0;
      assert read == body[..|read|];
      ShorterUnlines(body, |read|);
    }
  }

  lemma {:induction false} ShorterUnlines(body: seq<string>, k: nat)
    requires k < |body|
    ensures |Unlines(body[..k], NL)| < |Unlines(body, NL)|
  {
    assert body == body[..k] + body[k..];
    UnlinesAppend(body[..k], body[k..], NL);
  }

  lemma {:induction false} ReadIsPrefix(lines: seq<string>, delimiter: string)
    ensures ReadHereDoc(lines, delimiter).0 <= lines
  {
    if lines != [] && lines[0] != delimiter {
      ReadIsPrefix(lines[1..], delimiter);
    }
  }

  lemma DelimitersClear()
    ensures NL !in AGENT_EOF && NL !in SUPERVISOR_EOF && NL !in CAT_AGENT && NL !in CAT_SUPERVISOR
  {
    assert NL !in CAT_RUN_DIR;
    assert NL !in "agent.sh <<'" && NL !in "supervisor.sh <<'" && NL !in "'";
  }

  /** A one-line entry before a document. */
  lemma {:induction false} CatDocument(cat: string, text: string, delimiter: string, rest: seq<string>)
    requires NL !in cat && NL !in delimiter && rest != []
    ensures Split(Join([cat, text, delimiter] + rest, NL), NL) ==
            [cat] + Split(Join([text, delimiter] + rest, NL), NL)
  {
    assert [cat, text, delimiter] + rest == [cat] + ([text, delimiter] + rest);
    SplitEntries(cat, [text, delimiter] + rest);
    SplitLine(cat, [], NL);
  }

  /** For every agent command accepted, and any second text without its delimiter among its lines, the shell
      gives back exactly the two and goes on with the rest: neither document ends the other early. */
  lemma {:induction false} DocumentsRoundTrip(agentLines: seq<string>, supervisor: string, rest: seq<string>)
    requires SuperviseAgent(agentLines, supervisor, rest).Some? && rest != []
    requires SUPERVISOR_EOF !in Split(supervisor, NL)
    ensures var script := Join(SuperviseAgent(agentLines, supervisor, rest).value, NL);
            RunCats(script) == Some(Written(JoinLines(agentLines) + [NL], supervisor + [NL], Split(Join(rest, NL), NL)))
  {
    DelimitersClear();
    AcceptedClear(agentLines, supervisor, rest);
    var agent := JoinLines(agentLines);
    var second := [CAT_SUPERVISOR, supervisor, SUPERVISOR_EOF] + rest;
    var script := SuperviseAgent(agentLines, supervisor, rest).value;
    assert script == [CAT_AGENT, agent, AGENT_EOF] + second;
    CatDocument(CAT_AGENT, agent, AGENT_EOF, second);
    DocumentReadBackIff(agent, AGENT_EOF, second);
    CatDocument(CAT_SUPERVISOR, supervisor, SUPERVISOR_EOF, rest);
    DocumentReadBackIff(supervisor, SUPERVISOR_EOF, rest);
    ReadsTwo(agent, supervisor, second, rest);
  }

  /** How the lines of the supervisor begin, in order. */
  const SUPERVISOR_HEADS: seq<string> :=
    ["#!", "d=", "on_term()", "trap", "bash", "agent=", "tail", "printf", "wait", "code=", "echo", "if"]

  /** The supervisor, whatever its lines go on with. */
  function SupervisorText(tails: seq<string>): string
    requires |tails| == |SUPERVISOR_HEADS|
  {
    Join(seq(|tails|, i requires 0 <= i < |tails| => SUPERVISOR_HEADS[i] + tails[i]), NL)
  }

  lemma HeadClear(i: nat)
    requires i < |SUPERVISOR_HEADS|
    ensures SUPERVISOR_HEADS[i] != [] && SUPERVISOR_HEADS[i][0] != '_' && NL !in SUPERVISOR_HEADS[i]
  {
  }

  /** None of its lines is its delimiter. */
  lemma {:induction false} SupervisorClear(tails: seq<string>)
    requires |tails| == |SUPERVISOR_HEADS| && AllClear(tails, NL)
    ensures SUPERVISOR_EOF !in Split(SupervisorText(tails), NL)
  {
    var parts := seq(|tails|, i requires 0 <= i < |tails| => SUPERVISOR_HEADS[i] + tails[i]);
    forall i | 0 <= i < |parts| ensures NL !in parts[i] && parts[i] != SUPERVISOR_EOF {
      HeadClear(i);
      assert parts[i][0] == SUPERVISOR_HEADS[i][0] && SUPERVISOR_EOF[0] == '_';
    }
    SplitJoin(parts, NL);
  }

  /** So a start script writes exactly the agent lines as `agent.sh` and the supervisor as `supervisor.sh`. */
  lemma {:induction false} ScriptRoundTrip(agentLines: seq<string>, tails: seq<string>, rest: seq<string>)
    requires |tails| == |SUPERVISOR_HEADS| && AllClear(tails, NL) && rest != []
    requires SuperviseAgent(agentLines, SupervisorText(tails), rest).Some?
    ensures var script := Join(SuperviseAgent(agentLines, SupervisorText(tails), rest).value, NL);
            RunCats(script) ==
            Some(Written(JoinLines(agentLines) + [NL], SupervisorText(tails) + [NL], Split(Join(rest, NL), NL)))
  {
    SupervisorClear(tails);
    DocumentsRoundTrip(agentLines, SupervisorText(tails), rest);
  }

  lemma {:induction false} ReadsTwo(agent: string, supervisor: string, second: seq<string>, rest: seq<string>)
    requires second != [] && rest != []
    requires var lines := Split(Join([agent, AGENT_EOF] + second, NL), NL);
             && Split(Join([CAT_AGENT, agent, AGENT_EOF] + second, NL), NL) == [CAT_AGENT] + lines
             && ReadHereDoc(lines, AGENT_EOF) == (Split(agent, NL), Split(Join(second, NL), NL))
             && Unlines(Split(agent, NL), NL) == agent + [NL]
    requires var lines := Split(Join([supervisor, SUPERVISOR_EOF] + rest, NL), NL);
             && Split(Join(second, NL), NL) == [CAT_SUPERVISOR] + lines
             && ReadHereDoc(lines, SUPERVISOR_EOF) == (Split(supervisor, NL), Split(Join(rest, NL), NL))
             && Unlines(Split(supervisor, NL), NL) == supervisor + [NL]
    ensures RunCats(Join([CAT_AGENT, agent, AGENT_EOF] + second, NL)) ==
            Some(Written(agent + [NL], supervisor + [NL], Split(Join(rest, NL), NL)))
  {
    hide Split, Join, Unlines, ReadHereDoc;
    var first := Split(Join([agent, AGENT_EOF] + second, NL), NL);
    assert ([CAT_AGENT] + first)[1..] == first;
    var last := Split(Join([supervisor, SUPERVISOR_EOF] + rest, NL), NL);
    assert ([CAT_SUPERVISOR] + last)[1..] == last;
  }
}
