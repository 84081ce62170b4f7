/** Rollout transcripts: the stream parser, what it counts, and the aggregate over all agents. */
module Transcript {
  import opened Common
  import opened Usage

  type Id = string

  datatype Kind = Started | Interacted | Interrupted

  // Evidence that `parent` has started (or touched) `child`; `hint` is what helps to locate its file.
  datatype Edge = Edge(parent: Id, child: Id, kind: Kind, fromSignal: bool, hint: string)

  // One decoded line. A model, provider or effort that the line does not give is empty.
  datatype Event =
    | Malformed
    | SessionMeta(model: string, provider: string)
    | TurnContext(model: string, provider: string, effort: string)
    | Activity(child: Id, kind: Kind, hint: string)
    | ToolCall(name: string)
    | TokenCount(usage: Option<RawTokens>, model: string, provider: string)
    | Other

  datatype RolloutUsage = RolloutUsage(effort: string, tools: set<string>, totals: Tally, rows: seq<Row>)

  datatype Summary = Summary(edges: seq<Edge>, malformedLines: nat, usage: RolloutUsage)

  datatype Speaker = Speaker(provider: string, model: string, effort: string)

  datatype Parser = Parser(summary: Summary, model: string, provider: string)

  const FRESH_PARSER := Parser(Summary([], 0, RolloutUsage("", {}, NOTHING, [])), "unknown", "unknown")

  function Or(a: string, b: string): string {
    if a != "" then a else b
  }

  // ---------- lines ----------

  function Newline(text: string): (i: nat)
    ensures i <= |text| && '\n' !in text[..i] && (i < |text| ==> text[i] == '\n')
  {
    if text == "" || text[0] == '\n' then 0 else 1 + Newline(text[1..])
  }

  function TrimCarriage(line: string): string {
    if line != "" && line[|line| - 1] == '\r' then line[..|line| - 1] else line
  }

  function Lines(text: string): seq<string> {
    var i := Newline(text);
    if i == |text| then [TrimCarriage(text)]
    else [TrimCarriage(text[..i])] + Lines(text[i + 1..])
  }

  /** A line loses exactly one carriage return at its end. */
  lemma CarriageExactly(line: string)
    ensures TrimCarriage(line + "\r") == line
    ensures TrimCarriage(line) == line <==> line == "" || line[|line| - 1] != '\r'
  {
  }

  // The lines, each ended by a line feed, with a carriage return before it or not.
  function Written(lines: seq<string>, crlf: seq<bool>): string
    requires |crlf| == |lines|
  {
    if lines == [] then "" else lines[0] + (if crlf[0] then "\r\n" else "\n") + Written(lines[1..], crlf[1..])
  }

  /** Lines are read back whatever their ends, as long as they hold none themselves. */
  lemma {:induction false} LinesReadBack(lines: seq<string>, crlf: seq<bool>)
    requires |crlf| == |lines|
    requires forall l | l in lines :: '\n' !in l && (l == "" || l[|l| - 1] != '\r')
    ensures Lines(Written(lines, crlf)) == lines + [""]
    decreases lines
  {
    if lines != [] {
      LinesReadBack(lines[1..], crlf[1..]);
      WrittenFirst(lines, crlf);
      hide Lines, Written;
      assert [lines[0]] + (lines[1..] + [""]) == lines + [""];
    } else {
      assert Lines("") == [""];
    }
  }

  lemma WrittenFirst(lines: seq<string>, crlf: seq<bool>)
    requires |crlf| == |lines| && lines != []
    requires '\n' !in lines[0] && (lines[0] == "" || lines[0][|lines[0]| - 1] != '\r')
    ensures Lines(Written(lines, crlf)) == [lines[0]] + Lines(Written(lines[1..], crlf[1..]))
  {
    var line, rest := lines[0] + (if crlf[0] then "\r" else ""), Written(lines[1..], crlf[1..]);
    assert Written(lines, crlf) == line + "\n" + rest by {
      assert crlf[0] ==> "\r\n" == "\r" + "\n";
    }
    CarriageExactly(lines[0]);
    assert lines[0] + "" == lines[0];
    hide TrimCarriage, Lines, Written;
    FirstOf(line, rest);
  }

  lemma FirstOf(line: string, rest: string)
    requires '\n' !in line
    ensures Lines(line + "\n" + rest) == [TrimCarriage(line)] + Lines(rest)
  {
    var text := line + "\n" + rest;
    assert text[..|line|] == line && text[|line|] == '\n' && text[|line| + 1..] == rest;
    NewlineIs(text, |line|);
    hide Newline, TrimCarriage;
  }

  lemma NewlineIs(text: string, i: nat)
    requires i < |text| && text[i] == '\n' && '\n' !in text[..i]
    ensures Newline(text) == i
  {
    var j := Newline(text);
    forall k | 0 <= k < i ensures text[k] != '\n' {
      assert text[k] == text[..i][k];
    }
    forall k | 0 <= k < j ensures text[k] != '\n' {
      assert text[k] == text[..j][k];
    }
  }

  // ---------- one line ----------

  function Counted(u: RolloutUsage, row: Row): RolloutUsage {
    u.(totals := u.totals.Plus(row.tally), rows := Upsert(u.rows, row))
  }

  function Step(id: Id, decode: string -> Event, p: Parser, line: string): Parser {
    var s := p.summary;
    if line == "" then p
    else match decode(line)
      case Malformed => p.(summary := s.(malformedLines := s.malformedLines + 1))
      case SessionMeta(model, provider) => p.(model := Or(model, p.model), provider := Or(provider, p.provider))
      case TurnContext(model, provider, effort) =>
        p.(model := Or(model, p.model), provider := Or(provider, p.provider),
           summary := s.(usage := s.usage.(effort := Or(effort, s.usage.effort))))
      case Activity(child, kind, hint) =>
        p.(summary := s.(edges := s.edges + [Edge(id, child, kind, false, hint)]))
      case ToolCall(name) => p.(summary := s.(usage := s.usage.(tools := s.usage.tools + {name})))
      case TokenCount(usage, model, provider) =>
        if usage.None? then p
        else
          var row := Row(Or(provider, p.provider), Or(model, p.model), s.usage.effort,
                         Tally(1, Normalize(usage.value)));
          p.(summary := s.(usage := Counted(s.usage, row)))
      case Other => p
  }

  function Fold(id: Id, decode: string -> Event, lines: seq<string>): Parser
    decreases lines
  {
    if lines == [] then FRESH_PARSER
    else Step(id, decode, Fold(id, decode, lines[..|lines| - 1]), lines[|lines| - 1])
  }

  // ---------- the stream ----------

  function Flatten(chunks: seq<string>): string {
    if chunks == [] then "" else chunks[0] + Flatten(chunks[1..])
  }

  lemma TakeLine(carry: string, rest: string, at: nat)
    requires at < |carry| && at == Newline(carry)
    ensures Lines(carry + rest) == [TrimCarriage(carry[..at])] + Lines(carry[at + 1..] + rest)
  {
    var s := carry + rest;
    CutText(carry, rest, at);
    NewlineIs(s, at);
    hide Newline, TrimCarriage;
  }

  lemma CutText(carry: string, rest: string, at: nat)
    requires at < |carry|
    ensures var s := carry + rest;
            s[..at] == carry[..at] && s[at] == carry[at] && s[at + 1..] == carry[at + 1..] + rest
  {
  }

  lemma TakeChunk(carry: string, chunks: seq<string>, n: nat, tail: string)
    requires n < |chunks|
    ensures carry + Flatten(chunks[n..]) + tail == (carry + chunks[n]) + (Flatten(chunks[n + 1..]) + tail)
  {
    assert chunks[n..][1..] == chunks[n + 1..];
  }

  lemma FoldOne(id: Id, decode: string -> Event, done: seq<string>, line: string)
    ensures Fold(id, decode, done + [line]) == Step(id, decode, Fold(id, decode, done), line)
  {
    assert (done + [line])[..|done|] == done;
  }

  /** Takes every complete line off the carry buffer, whatever text is still to come. */
  method DrainCarry(id: Id, decode: string -> Event, p0: Parser, carry0: string, ghost done0: seq<string>,
      ghost rest: string)
    returns (p: Parser, carry: string, ghost done: seq<string>)
    requires p0 == Fold(id, decode, done0)
    ensures p == Fold(id, decode, done) && '\n' !in carry
    ensures done + Lines(carry + rest) == done0 + Lines(carry0 + rest)
  {
    hide Lines, Fold, Step, TrimCarriage;
    p, carry, done := p0, carry0, done0;
    var at := Newline(carry);
    while at < |carry|
      invariant at == Newline(carry)
      invariant p == Fold(id, decode, done)
      invariant done + Lines(carry + rest) == done0 + Lines(carry0 + rest)
      decreases |carry|
    {
      var line := TrimCarriage(carry[..at]);
      TakeLine(carry, rest, at);
      FoldOne(id, decode, done, line);
      carry := carry[at + 1..];
      p := Step(id, decode, p, line);
      done := done + [line];
      at := Newline(carry);
    }
    assert carry[..at] == carry;
  }

  /**
   Reads a transcript chunk by chunk through a carry buffer; `tail` is what the decoder still holds at the end.
   Unless the clock stops it or a read breaks, the result depends on the whole text only, wherever the chunks are cut.
   */
  method ParseRolloutStream(id: Id, decode: string -> Event, chunks: seq<string>, tail: string,
                            halts: nat -> bool, breaks: nat -> bool)
    returns (ok: bool, summary: Summary)
    requires '\n' !in tail
    ensures ok <==> forall i | 0 <= i <= |chunks| :: !halts(i) && !breaks(i)
    ensures ok ==> summary == Fold(id, decode, Lines(Flatten(chunks) + tail)).summary
  {
    hide Lines, Fold, Step, TrimCarriage;
    ghost var text := Flatten(chunks) + tail;
    var p, carry, n := FRESH_PARSER, "", 0;
    ghost var done: seq<string> := [];
    assert chunks[0..] == chunks && carry + Flatten(chunks) + tail == text;
    assert p == Fold(id, decode, done) by { FoldNone(id, decode); }
    while true
      invariant n <= |chunks| && '\n' !in carry
      invariant forall i | 0 <= i < n :: !halts(i) && !breaks(i)
      invariant p == Fold(id, decode, done)
      invariant Lines(text) == done + Lines(carry + Flatten(chunks[n..]) + tail)
      decreases |chunks| - n
    {
      if halts(n) || breaks(n) {
        return false, p.summary;
      }
      if n == |chunks| {
        break;
      }
      TakeChunk(carry, chunks, n, tail);
      carry := carry + chunks[n];
      n := n + 1;
      hide Flatten;
      ghost var rest := Flatten(chunks[n..]) + tail;
      p, carry, done := DrainCarry(id, decode, p, carry, done, rest);
      Regrouped(carry, Flatten(chunks[n..]), tail);
    }
    assert carry + Flatten(chunks[n..]) + tail == carry + tail;
    carry := carry + tail;
    LastLine(id, decode, done, carry);
    if carry != "" {
      p := Step(id, decode, p, TrimCarriage(carry));
    }
    return true, p.summary;
  }

  lemma FoldNone(id: Id, decode: string -> Event)
    ensures Fold(id, decode, []) == FRESH_PARSER
  {
  }

  lemma LastLine(id: Id, decode: string -> Event, done: seq<string>, carry: string)
    requires '\n' !in carry
    ensures Fold(id, decode, done + Lines(carry))
            == if carry == "" then Fold(id, decode, done)
                else Step(id, decode, Fold(id, decode, done), TrimCarriage(carry))
  {
    assert Newline(carry) == |carry|;
    FoldOne(id, decode, done, TrimCarriage(carry));
  }

  // ---------- what a transcript reports ----------

  // Who speaks after one more line: the last values given.
  function Heard(decode: string -> Event, who: Speaker, line: string): Speaker {
    if line == "" then who
    else match decode(line)
      case SessionMeta(model, provider) => who.(model := Or(model, who.model), provider := Or(provider, who.provider))
      case TurnContext(model, provider, effort) =>
        Speaker(Or(provider, who.provider), Or(model, who.model), Or(effort, who.effort))
      case _ => who
  }

  function SpeakerAfter(decode: string -> Event, lines: seq<string>): Speaker
    decreases lines
  {
    if lines == [] then Speaker("unknown", "unknown", "")
    else Heard(decode, SpeakerAfter(decode, lines[..|lines| - 1]), lines[|lines| - 1])
  }

  // The call that a line reports, if any.
  function CallIn(decode: string -> Event, who: Speaker, line: string): Option<Row> {
    if line == "" then None
    else match decode(line)
      case TokenCount(Some(raw), model, provider) =>
        Some(Row(Or(provider, who.provider), Or(model, who.model), who.effort, Tally(1, Normalize(raw))))
      case _ => None
  }

  function Calls(decode: string -> Event, lines: seq<string>): seq<Row>
    decreases lines
  {
    if lines == [] then []
    else
      var call := CallIn(decode, SpeakerAfter(decode, lines[..|lines| - 1]), lines[|lines| - 1]);
      Calls(decode, lines[..|lines| - 1]) + if call.Some? then [call.value] else []
  }

  predicate NamedRow(row: Row) {
    row.provider != "" && row.model != ""
  }

  function SpeakerOf(p: Parser): Speaker {
    Speaker(p.provider, p.model, p.summary.usage.effort)
  }

  lemma StepDoes(id: Id, decode: string -> Event, p: Parser, line: string)
    requires p.provider != "" && p.model != ""
    ensures var q := Step(id, decode, p, line); var call := CallIn(decode, SpeakerOf(p), line);
            && SpeakerOf(q) == Heard(decode, SpeakerOf(p), line) && q.provider != "" && q.model != ""
            && match call
               case None =>
                 q.summary.usage.rows == p.summary.usage.rows && q.summary.usage.totals == p.summary.usage.totals
               case Some(row) =>
                 && q.summary.usage.rows == Upsert(p.summary.usage.rows, row)
                 && q.summary.usage.totals == p.summary.usage.totals.Plus(row.tally)
                 && row.tally.calls == 1 && Sound(row.tally.usage) && NamedRow(row)
  {
    hide Upsert, Tally.Plus;
  }

  /** The rows of a transcript group exactly its calls; the totals are those of all calls. */
  lemma {:induction false} ParsedUsage(id: Id, decode: string -> Event, lines: seq<string>)
    ensures var p := Fold(id, decode, lines); var calls := Calls(decode, lines);
            && p.summary.usage.rows == Regroup(calls) && p.summary.usage.totals == Total(calls)
            && SpeakerOf(p) == SpeakerAfter(decode, lines) && p.provider != "" && p.model != ""
            && Total(calls).calls == |calls| && Sound(Total(calls).usage)
            && forall r | r in calls :: NamedRow(r)
    decreases lines
  {
    if lines != [] {
      var n := |lines| - 1;
      ParsedUsage(id, decode, lines[..n]);
      StepDoes(id, decode, Fold(id, decode, lines[..n]), lines[n]);
      hide Step, CallIn, Heard, SpeakerOf, Upsert, Tokens.Plus, Sound, NamedRow;
      var before, calls := Calls(decode, lines[..n]), Calls(decode, lines);
      if calls != before {
        assert calls[..|before|] == before;
        TotalsAdd(Total(before).usage, calls[|before|].tally.usage);
      }
    }
  }

  /** Activities and malformed lines are all kept, in order: what one more line adds. */
  lemma {:induction false} ParsedEdges(id: Id, decode: string -> Event, lines: seq<string>, child: Id, kind: Kind,
      hint: string)
    ensures Edge(id, child, kind, false, hint) in Fold(id, decode, lines).summary.edges
            <==> exists i :: 0 <= i < |lines| && lines[i] != "" && decode(lines[i]) == Activity(child, kind, hint)
    decreases lines
  {
    if lines != [] {
      var n := |lines| - 1;
      ParsedEdges(id, decode, lines[..n], child, kind, hint);
      var e := Edge(id, child, kind, false, hint);
      var p, q := Fold(id, decode, lines[..n]), Fold(id, decode, lines);
      assert e in q.summary.edges <==> e in p.summary.edges
                                       || (lines[n] != "" && decode(lines[n]) == Activity(child, kind, hint));
    }
  }

  ghost function BadLines(decode: string -> Event, lines: seq<string>): set<nat> {
    set i: nat | i < |lines| && lines[i] != "" && decode(lines[i]).Malformed?
  }

  lemma BadStep(decode: string -> Event, lines: seq<string>, line: string)
    ensures |BadLines(decode, lines + [line])|
            == |BadLines(decode, lines)| + if line != "" && decode(line).Malformed? then 1 else 0
  {
    var n, bad, all := |lines|, BadLines(decode, lines), BadLines(decode, lines + [line]);
    assert forall i: nat :: i in all <==> i in bad || (i == n && line != "" && decode(line).Malformed?);
    assert n !in bad;
    assert all == bad + if line != "" && decode(line).Malformed? then {n} else {};
  }

  lemma NoneBad(decode: string -> Event)
    ensures |BadLines(decode, [])| == 0
  {
    assert BadLines(decode, []) == {};
  }

  /** Malformed lines are counted one by one. */
  lemma {:induction false} ParsedMalformed(id: Id, decode: string -> Event, lines: seq<string>)
    ensures Fold(id, decode, lines).summary.malformedLines == |BadLines(decode, lines)|
    decreases lines
  {
    hide BadLines;
    if lines != [] {
      var n := |lines| - 1;
      ParsedMalformed(id, decode, lines[..n]);
      BadStep(decode, lines[..n], lines[n]);
      assert lines[..n] + [lines[n]] == lines;
    } else {
      NoneBad(decode);
    }
  }

  /** A tool is reported exactly when some line calls it. */
  lemma {:induction false} ParsedTools(id: Id, decode: string -> Event, lines: seq<string>, name: string)
    ensures name in Fold(id, decode, lines).summary.usage.tools
            <==> exists i :: 0 <= i < |lines| && lines[i] != "" && decode(lines[i]) == ToolCall(name)
    decreases lines
  {
    if lines != [] {
      var n := |lines| - 1;
      ParsedTools(id, decode, lines[..n], name);
      var p, q := Fold(id, decode, lines[..n]), Fold(id, decode, lines);
      assert name in q.summary.usage.tools <==> name in p.summary.usage.tools
                                                || (lines[n] != "" && decode(lines[n]) == ToolCall(name));
    }
  }

  // What one more line says is added at the end.
  lemma EdgesStep(id: Id, decode: string -> Event, p: Parser, q: Parser, line: string)
    ensures exists more ::
              && Step(id, decode, p, line).summary.edges == p.summary.edges + more
              && Step(id, decode, q, line).summary.edges == q.summary.edges + more
  {
    var more := Step(id, decode, p, line).summary.edges[|p.summary.edges|..];
    assert Step(id, decode, p, line).summary.edges == p.summary.edges + more;
    assert Step(id, decode, q, line).summary.edges == q.summary.edges + more;
  }

  /** Edges stand in the order of their lines: those of a longer transcript begin with those of the shorter one. */
  lemma {:induction false} EdgesInOrder(id: Id, decode: string -> Event, a: seq<string>, b: seq<string>)
    ensures Fold(id, decode, a + b).summary.edges
            == Fold(id, decode, a).summary.edges + Fold(id, decode, b).summary.edges
    decreases b
  {
    if b == [] {
      assert a + b == a;
      assert Fold(id, decode, a).summary.edges + [] == Fold(id, decode, a).summary.edges;
    } else {
      var n := |b| - 1;
      assert (a + b)[..|a + b| - 1] == a + b[..n];
      EdgesInOrder(id, decode, a, b[..n]);
      EdgesStep(id, decode, Fold(id, decode, a + b[..n]), Fold(id, decode, b[..n]), b[n]);
      hide Step;
    }
  }

  // ---------- the aggregate ----------

  datatype Aggregate = Aggregate(count: nat, calls: nat, tokens: nat, usage: Tokens, tools: set<string>, rows: seq<Row>)

  function Named(row: Row): Row {
    row.(provider := Or(row.provider, "unknown"), model := Or(row.model, "unknown"))
  }

  function NamedRows(rows: seq<Row>): (r: seq<Row>)
    ensures |r| == |rows| && forall i | 0 <= i < |rows| :: r[i] == Named(rows[i])
  {
    seq(|rows|, i requires 0 <= i < |rows| => Named(rows[i]))
  }

  function AllRows(agents: seq<RolloutUsage>): seq<Row> {
    if agents == [] then [] else AllRows(agents[..|agents| - 1]) + NamedRows(agents[|agents| - 1].rows)
  }

  function AllCalls(agents: seq<RolloutUsage>): nat {
    if agents == [] then 0 else AllCalls(agents[..|agents| - 1]) + agents[|agents| - 1].totals.calls
  }

  function AllTools(agents: seq<RolloutUsage>): set<string> {
    if agents == [] then {} else AllTools(agents[..|agents| - 1]) + agents[|agents| - 1].tools
  }

  function AllTokens(agents: seq<RolloutUsage>): nat {
    if agents == [] then 0 else AllTokens(agents[..|agents| - 1]) + TokenTotal(agents[|agents| - 1].totals.usage)
  }

  lemma TakeRow(before: seq<Row>, rows: seq<Row>, j: nat)
    requires j < |rows|
    ensures var sofar, next := before + NamedRows(rows[..j]), before + NamedRows(rows[..j + 1]);
            && Regroup(next) == Upsert(Regroup(sofar), Named(rows[j]))
            && Total(next) == Total(sofar).Plus(rows[j].tally)
  {
    hide Upsert, Tally.Plus;
    var sofar, next := before + NamedRows(rows[..j]), before + NamedRows(rows[..j + 1]);
    assert next[..|sofar|] == sofar && next[|sofar|] == Named(rows[j]);
  }

  lemma TakeAgent(agents: seq<RolloutUsage>, i: nat)
    requires i < |agents|
    ensures AllRows(agents[..i + 1]) == AllRows(agents[..i]) + NamedRows(agents[i].rows)
    ensures AllRows(agents[..i]) + NamedRows(agents[i].rows[..0]) == AllRows(agents[..i])
    ensures AllCalls(agents[..i + 1]) == AllCalls(agents[..i]) + agents[i].totals.calls
    ensures AllTools(agents[..i + 1]) == AllTools(agents[..i]) + agents[i].tools
  {
    hide NamedRows;
    assert agents[..i + 1][..i] == agents[..i];
  }

  /** Regroups the rows of all agents by key, with the total of everything. */
  method AggregateAgents(agents: seq<RolloutUsage>) returns (a: Aggregate)
    ensures a.count == |agents| && a.calls == AllCalls(agents)
    ensures a.rows == Regroup(AllRows(agents))
    ensures a.usage == Total(AllRows(agents)).usage && a.tokens == TokenTotal(a.usage)
    ensures a.tools == AllTools(agents)
  {
    var usage, tools, rows, calls := NO_TOKENS, {}, [], 0;
    var i := 0;
    while i < |agents|
      invariant i <= |agents|
      invariant calls == AllCalls(agents[..i])
      invariant rows == Regroup(AllRows(agents[..i])) && usage == Total(AllRows(agents[..i])).usage
      invariant tools == AllTools(agents[..i])
    {
      hide *;
      var agent := agents[i];
      ghost var before := AllRows(agents[..i]);
      TakeAgent(agents, i);
      calls := calls + agent.totals.calls;
      tools := tools + agent.tools;
      var j := 0;
      while j < |agent.rows|
        invariant j <= |agent.rows|
        invariant rows == Regroup(before + NamedRows(agent.rows[..j]))
        invariant usage == Total(before + NamedRows(agent.rows[..j])).usage
      {
        TakeRow(before, agent.rows, j);
        usage := usage.Plus(agent.rows[j].tally.usage);
        rows := Upsert(rows, Named(agent.rows[j]));
        j := j + 1;
      }
      assert agent.rows[..j] == agent.rows;
      i := i + 1;
    }
    assert agents[..i] == agents;
    a := Aggregate(|agents|, calls, TokenTotal(usage), usage, tools, rows);
  }

  datatype Rollout = Rollout(id: Id, lines: seq<string>)

  function UsageOf(decode: string -> Event, r: Rollout): RolloutUsage {
    Fold(r.id, decode, r.lines).summary.usage
  }

  function UsagesOf(decode: string -> Event, rollouts: seq<Rollout>): (r: seq<RolloutUsage>)
    ensures |r| == |rollouts| && forall i | 0 <= i < |rollouts| :: r[i] == UsageOf(decode, rollouts[i])
  {
    seq(|rollouts|, i requires 0 <= i < |rollouts| => UsageOf(decode, rollouts[i]))
  }

  function CallsOf(decode: string -> Event, rollouts: seq<Rollout>): seq<Row>
    decreases rollouts
  {
    if rollouts == [] then []
    else CallsOf(decode, rollouts[..|rollouts| - 1]) + Calls(decode, rollouts[|rollouts| - 1].lines)
  }

  lemma {:induction false} RegroupNamed(rows: seq<Row>)
    requires forall r | r in rows :: NamedRow(r)
    ensures forall r | r in Regroup(rows) :: NamedRow(r)
  {
    if rows != [] {
      var n := |rows| - 1;
      RegroupNamed(rows[..n]);
      var i := Index(Regroup(rows[..n]), rows[n].Key());
      forall r | r in Regroup(rows) ensures NamedRow(r) {
        var k :| 0 <= k < |Regroup(rows)| && Regroup(rows)[k] == r;
        assert k < |Regroup(rows[..n])| ==> NamedRow(Regroup(rows[..n])[k]);
      }
    }
  }

  lemma PlusLaws(a: Tally, b: Tally, c: Tally)
    ensures a.Plus(b).Plus(c) == a.Plus(b.Plus(c)) && a.Plus(NOTHING) == a
  {
  }

  lemma {:induction false} TotalSplit(a: seq<Row>, b: seq<Row>)
    ensures Total(a + b) == Total(a).Plus(Total(b))
  {
    hide Tally.Plus;
    if b == [] {
      assert a + b == a;
      PlusLaws(Total(a), NOTHING, NOTHING);
    } else {
      assert (a + b)[..|a + b| - 1] == a + b[..|b| - 1];
      TotalSplit(a, b[..|b| - 1]);
      PlusLaws(Total(a), Total(b[..|b| - 1]), b[|b| - 1].tally);
    }
  }

  lemma OneRollout(decode: string -> Event, r: Rollout)
    ensures var u, calls := UsageOf(decode, r), Calls(decode, r.lines);
            && NamedRows(u.rows) == Regroup(calls) && u.totals == Total(calls) == Total(Regroup(calls))
            && Total(calls).calls == |calls| && Sound(Total(calls).usage)
  {
    var calls := Calls(decode, r.lines);
    ParsedUsage(r.id, decode, r.lines);
    RegroupNamed(calls);
    RegroupExact(calls, "");
    hide Regroup, Fold, Sound, Total;
    assert forall i | 0 <= i < |Regroup(calls)| :: NamedRow(Regroup(calls)[i]);
  }

  /**
   From transcripts to the aggregate nothing is lost or counted twice: its rows group exactly the calls of all
   transcripts, and calls, usage and shown tokens are the sums over all of them.
   */
  lemma {:induction false} UsageConserved(decode: string -> Event, rollouts: seq<Rollout>)
    ensures var agents := UsagesOf(decode, rollouts); var calls := CallsOf(decode, rollouts);
            && Regroup(AllRows(agents)) == Regroup(calls)
            && Total(AllRows(agents)) == Total(calls)
            && AllCalls(agents) == |calls| == Total(calls).calls
            && Sound(Total(calls).usage) && AllTokens(agents) == TokenTotal(Total(calls).usage)
    decreases rollouts
  {
    if rollouts != [] {
      var n := |rollouts| - 1;
      UsageConserved(decode, rollouts[..n]);
      OneRollout(decode, rollouts[n]);
      hide Tokens.Plus, Sound, TokenTotal, UsageOf, Calls, Into, Total;
      var agents := UsagesOf(decode, rollouts);
      assert agents[..n] == UsagesOf(decode, rollouts[..n]);
      var calls := Calls(decode, rollouts[n].lines);
      var before, all := AllRows(agents[..n]), CallsOf(decode, rollouts[..n]);
      IntoSplit([], before, Regroup(calls));
      IntoSplit([], all, calls);
      IntoRegrouped(Regroup(all), calls);
      TotalSplit(before, Regroup(calls));
      TotalSplit(all, calls);
      TotalsAdd(Total(all).usage, Total(calls).usage);
    }
  }

  /** A tool is in the aggregate exactly when some line of some transcript calls it. */
  lemma {:induction false} ToolsConserved(decode: string -> Event, rollouts: seq<Rollout>, name: string)
    ensures name in AllTools(UsagesOf(decode, rollouts))
            <==> exists j, i :: 0 <= j < |rollouts| && 0 <= i < |rollouts[j].lines| && rollouts[j].lines[i] != ""
                                && decode(rollouts[j].lines[i]) == ToolCall(name)
    decreases rollouts
  {
    if rollouts != [] {
      var n := |rollouts| - 1;
      ToolsConserved(decode, rollouts[..n], name);
      ParsedTools(rollouts[n].id, decode, rollouts[n].lines, name);
      assert UsagesOf(decode, rollouts)[..n] == UsagesOf(decode, rollouts[..n]);
      hide Fold;
      assert UsagesOf(decode, rollouts)[n] == UsageOf(decode, rollouts[n]);
      if j, i :| 0 <= j < n && 0 <= i < |rollouts[..n][j].lines| && rollouts[..n][j].lines[i] != ""
                 && decode(rollouts[..n][j].lines[i]) == ToolCall(name) {
        assert rollouts[j].lines[i] != "" && decode(rollouts[j].lines[i]) == ToolCall(name);
      }
      if j, i :| 0 <= j < n && 0 <= i < |rollouts[j].lines| && rollouts[j].lines[i] != ""
                 && decode(rollouts[j].lines[i]) == ToolCall(name) {
        assert rollouts[..n][j].lines[i] != "" && decode(rollouts[..n][j].lines[i]) == ToolCall(name);
      }
    }
  }

  /** In the aggregate every row names a provider and a model, if need be as unknown. */
  lemma {:induction false} RowsNamed(agents: seq<RolloutUsage>)
    ensures forall r | r in Regroup(AllRows(agents)) :: NamedRow(r)
  {
    AllNamed(agents);
    RegroupNamed(AllRows(agents));
  }

  lemma {:induction false} AllNamed(agents: seq<RolloutUsage>)
    ensures forall r | r in AllRows(agents) :: NamedRow(r)
  {
    if agents != [] {
      AllNamed(agents[..|agents| - 1]);
    }
  }
}
