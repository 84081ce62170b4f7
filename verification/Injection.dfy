/**
 The injected context (hooks/brain-inject.mjs, hooks/change-core.mjs): the block of open changes, its cap, and
 the ladder that evicts parts until the whole fits its byte budget.
 */
module Injection {
  import opened Common
  import opened Frontmatter

  // The bytes of a character in UTF-8.
  function Weight(c: char): nat {
    if c < '\U{80}' then 1 else if c < '\U{800}' then 2 else if c < '\U{10000}' then 3 else 4
  }

  function Bytes(s: string): nat {
    if s == "" then 0 else Bytes(s[..|s| - 1]) + Weight(s[|s| - 1])
  }

  const TOTAL_BYTES: nat := 24 * 1024
  const LINE_CHARS: nat := 320
  const LEAST_BYTES: nat := 512
  const SHORTENED := " … [linha resumida pelo budget]"
  const OMITTED := "- … conteúdo restante omitido pelo budget de injeção."

  function Kept(parts: seq<string>): seq<string> {
    if parts == [] then [] else Kept(parts[..|parts| - 1]) + if parts[|parts| - 1] != "" then [parts[|parts| - 1]]
        else []
  }

  // ---------- the capped block ----------

  function BoundLine(line: string, maxChars: nat): string {
    if |line| <= maxChars then line
    else line[..if maxChars > |SHORTENED| then maxChars - |SHORTENED| else 0] + SHORTENED
  }

  function BoundLines(lines: seq<string>, maxChars: nat): (r: seq<string>)
    ensures |r| == |lines| && forall i | 0 <= i < |lines| :: r[i] == BoundLine(lines[i], maxChars)
  {
    seq(|lines|, i requires 0 <= i < |lines| => BoundLine(lines[i], maxChars))
  }

  function Open(tag: string): string {
    if tag != "" then "<" + tag + ">" else ""
  }

  function Close(tag: string): string {
    if tag != "" then "</" + tag + ">" else ""
  }

  // What is measured before a further line is kept.
  function Candidate(out: seq<string>, tag: string): string {
    Join(Kept(out + [OMITTED, Close(tag)]))
  }

  function FitCount(body: seq<string>, tag: string, maxBytes: nat, n: nat): (k: nat)
    requires n <= |body|
    ensures n <= k <= |body|
    decreases |body| - n
  {
    if n == |body| || Bytes(Candidate(body[..n + 1], tag)) > maxBytes then n else FitCount(body, tag, maxBytes, n + 1)
  }

  function Closed(out: seq<string>, tag: string): string {
    Join(out + [OMITTED] + if tag != "" then [Close(tag)] else [])
  }

  function BodyLines(lines: seq<string>, tag: string, maxChars: nat): seq<string> {
    var bounded := BoundLines(lines, maxChars);
    if tag != "" && lines != [] then bounded[..|bounded| - 1] else bounded
  }

  // The longest run of leading lines that fits, marked and closed; at least the tag itself.
  function Capped(lines: seq<string>, tag: string, maxBytes: Option<nat>, maxChars: nat): string {
    var bounded := BoundLines(lines, maxChars);
    if maxBytes.None? || Bytes(Join(bounded)) <= maxBytes.value then Join(bounded)
    else
      var body := BodyLines(lines, tag, maxChars);
      var n := FitCount(body, tag, maxBytes.value, 0);
      Closed(if n == 0 && tag != "" then [Open(tag)] else body[..n], tag)
  }

  method BoundAll(lines: seq<string>, maxChars: nat) returns (bounded: seq<string>)
    ensures bounded == BoundLines(lines, maxChars)
  {
    hide BoundLine;
    bounded := [];
    var i := 0;
    while i < |lines|
      invariant i <= |lines| && bounded == BoundLines(lines[..i], maxChars)
    {
      assert lines[..i + 1][..i] == lines[..i];
      bounded := bounded + [BoundLine(lines[i], maxChars)];
      i := i + 1;
    }
    assert lines[..i] == lines;
  }

  method CapInjectionBlock(lines: seq<string>, tag: string, maxBytes: Option<nat>, maxChars: nat)
      returns (block: string)
    ensures block == Capped(lines, tag, maxBytes, maxChars)
  {
    hide Bytes, Join, Candidate, BoundLine, Open, Close;
    var bounded := BoundAll(lines, maxChars);
    if maxBytes.None? || Bytes(Join(bounded)) <= maxBytes.value {
      return Join(bounded);
    }
    var body := if tag != "" && lines != [] then bounded[..|bounded| - 1] else bounded;
    var out := [];
    var i := 0;
    while i < |body|
      invariant i <= |body| && out == body[..i]
      invariant FitCount(body, tag, maxBytes.value, 0) == FitCount(body, tag, maxBytes.value, i)
    {
      assert body[..i] + [body[i]] == body[..i + 1];
      if Bytes(Candidate(out + [body[i]], tag)) > maxBytes.value {
        break;
      }
      out := out + [body[i]];
      i := i + 1;
    }
    if out == [] && tag != "" {
      out := [Open(tag)];
    }
    out := out + [OMITTED];
    if tag != "" {
      out := out + [Close(tag)];
    }
    block := Join(out);
    assert out == (if i == 0 && tag != "" then [Open(tag)] else body[..i]) + [OMITTED]
        + (if tag != "" then [Close(tag)] else []);
  }

  // ---------- the open changes ----------

  datatype Task = Task(id: string, text: string)

  datatype Change = Change(slug: string, current: bool, openTasks: seq<Task>, doneCount: nat, warning: string)

  datatype Backlog = Backlog(current: string, changes: seq<Change>, pointerWarning: string)

  function Decimal(n: nat): string {
    if n < 10 then [('0' as int + n) as char] else Decimal(n / 10) + Decimal(n % 10)
  }

  function TaskLines(tasks: seq<Task>): seq<string> {
    if tasks == [] then []
    else TaskLines(tasks[..|tasks| - 1]) + ["- [ ] " + tasks[|tasks| - 1].id + " " + tasks[|tasks| - 1].text]
  }

  function ChangeLines(c: Change): seq<string> {
    ["### " + (if c.current then "ATUAL" else "ABERTA") + " — " + c.slug + " (" + Decimal(|c.openTasks|)
        + " aberta(s), "
     + Decimal(c.doneCount) + " concluída(s))"]
    + if c.warning != "" then ["- Aviso: " + c.warning + "."]
      else if c.openTasks == [] then ["- Nenhuma tarefa aberta."]
      else TaskLines(c.openTasks)
  }

  function Visible(changes: seq<Change>, currentOnly: bool): seq<Change> {
    if changes == [] then []
    else
      var last := changes[|changes| - 1];
      Visible(changes[..|changes| - 1], currentOnly) + if last.current || !currentOnly then [last] else []
  }

  function AllChangeLines(changes: seq<Change>): seq<string> {
    if changes == [] then [] else AllChangeLines(changes[..|changes| - 1]) + ChangeLines(changes[|changes| - 1])
  }

  const NO_CURRENT := "Nenhuma change atual selecionada; comandos sem --change continuam recusados."

  function HeadLines(b: Backlog): seq<string> {
    [if b.current != "" then "Change atual (comandos sem --change): " + b.current + "." else NO_CURRENT]
    + if b.pointerWarning != "" then ["Aviso: " + b.pointerWarning + "."] else []
  }

  const HINT := "Para change atual: `wendkeep change done <id>`; antes de archive: `wendkeep verify`."
  const FOOTER :=
    "Qualquer agente pode assumir uma change: selecione-a com `wendkeep change use <slug>` ou use `--change <slug>` quando disponível."

  function OmittedLine(omitted: nat): string {
    "- " + Decimal(omitted) + " change(s) não atual(is) omitida(s) pelo budget global."
  }

  function TailLines(b: Backlog, omitted: int): seq<string> {
    (if omitted > 0 then [OmittedLine(omitted)] else []) + (if b.current != "" then [HINT] else []) + [FOOTER]
  }

  function BlockLines(b: Backlog, tag: string, currentOnly: bool): seq<string> {
    var visible := Visible(b.changes, currentOnly);
    (if tag != "" then [Open(tag)] else []) + HeadLines(b) + AllChangeLines(visible)
    + TailLines(b, |b.changes| - |visible|) + if tag != "" then [Close(tag)] else []
  }

  function Rendered(b: Backlog, tag: string, currentOnly: bool, maxBytes: Option<nat>, maxChars: nat): string {
    if b.changes == [] && b.pointerWarning == "" then ""
    else Capped(BlockLines(b, tag, currentOnly), tag, maxBytes, maxChars)
  }

  method ListChanges(changes: seq<Change>, currentOnly: bool) returns (lines: seq<string>, visible: nat)
    ensures lines == AllChangeLines(Visible(changes, currentOnly)) && visible == |Visible(changes, currentOnly)|
  {
    hide ChangeLines;
    lines, visible := [], 0;
    var i := 0;
    while i < |changes|
      invariant i <= |changes| && visible == |Visible(changes[..i], currentOnly)|
      invariant lines == AllChangeLines(Visible(changes[..i], currentOnly))
    {
      var change := changes[i];
      assert changes[..i + 1][..i] == changes[..i];
      ghost var before := Visible(changes[..i], currentOnly);
      assert (before + [change])[..|before|] == before && before + [] == before;
      if change.current || !currentOnly {
        lines := lines + ChangeLines(change);
        visible := visible + 1;
      }
      i := i + 1;
    }
    assert changes[..i] == changes;
  }

  method RenderOpenChanges(b: Backlog, tag: string, currentOnly: bool, maxBytes: Option<nat>, maxChars: nat)
    returns (block: string)
    ensures block == Rendered(b, tag, currentOnly, maxBytes, maxChars)
  {
    hide Capped, Decimal, TailLines, HeadLines, Open, Close, Visible, AllChangeLines;
    if b.changes == [] && b.pointerWarning == "" {
      return "";
    }
    var lines := if tag != "" then [Open(tag)] else [];
    lines := lines + HeadLines(b);
    var listed, visible := ListChanges(b.changes, currentOnly);
    lines := lines + listed + TailLines(b, |b.changes| - visible) + if tag != "" then [Close(tag)] else [];
    block := CapInjectionBlock(lines, tag, maxBytes, maxChars);
  }

  // ---------- the ladder ----------

  const TAG := "open_changes"

  // What surrounds the open changes; an empty text is left out.
  datatype Parts = Parts(harness: bool, brain: string, profileNotice: string, router: string, focus: string,
      lessons: string)

  const LESSONS_EVICTED :=
    "<wk_budget_notice priority=\"1\" layer=\"lessons\">Lessons omitidas primeiro pelo budget global.</wk_budget_notice>"
  const OTHERS_EVICTED :=
    "<wk_budget_notice priority=\"2\" layer=\"non-current-changes\">Changes não atuais omitidas depois das lessons.</wk_budget_notice>"
  const CURRENT_SUMMARIZED :=
    "<wk_budget_notice priority=\"3\" layer=\"current-change\">Change atual resumida por último; blocker e início da fila foram preservados.</wk_budget_notice>"

  // Sanitizing is the identity on clean text.
  function JoinInjection(parts: seq<string>): string {
    Join(Kept(parts))
  }

  function With(p: Parts, more: seq<string>): string {
    JoinInjection([p.brain, p.profileNotice, p.router, p.focus] + more)
  }

  function Fixed(p: Parts): string {
    With(p, [LESSONS_EVICTED, OTHERS_EVICTED, CURRENT_SUMMARIZED])
  }

  function Remaining(p: Parts): nat {
    if TOTAL_BYTES - Bytes(Fixed(p)) - 1 > LEAST_BYTES then TOTAL_BYTES - Bytes(Fixed(p)) - 1 else LEAST_BYTES
  }

  function Block(b: Backlog, currentOnly: bool, maxBytes: Option<nat>): string {
    Rendered(b, TAG, currentOnly, maxBytes, LINE_CHARS)
  }

  function Full(p: Parts, b: Backlog): string {
    With(p, [Block(b, false, None), p.lessons])
  }

  function WithoutLessons(p: Parts, b: Backlog): string {
    With(p, [Block(b, false, None), LESSONS_EVICTED])
  }

  function CurrentOnly(p: Parts, b: Backlog): string {
    With(p, [Block(b, true, None), LESSONS_EVICTED, OTHERS_EVICTED])
  }

  function Summarized(p: Parts, b: Backlog): string {
    With(p, [LESSONS_EVICTED, OTHERS_EVICTED, Block(b, true, Some(Remaining(p))), CURRENT_SUMMARIZED])
  }

  predicate Fits(s: string) {
    Bytes(s) <= TOTAL_BYTES
  }

  // The first step of the ladder that fits, else the last.
  function Injected(p: Parts, b: Backlog): string {
    if !p.harness then JoinInjection([p.brain, p.profileNotice, p.lessons])
    else if Fits(Full(p, b)) then Full(p, b)
    else if Fits(WithoutLessons(p, b)) then WithoutLessons(p, b)
    else if Fits(CurrentOnly(p, b)) then CurrentOnly(p, b)
    else Summarized(p, b)
  }

  method BuildInjection(p: Parts, b: Backlog) returns (output: string)
    ensures output == Injected(p, b)
  {
    hide Rendered, JoinInjection, Bytes;
    if !p.harness {
      return JoinInjection([p.brain, p.profileNotice, p.lessons]);
    }
    var allChanges := RenderOpenChanges(b, TAG, false, None, LINE_CHARS);
    var base := [p.brain, p.profileNotice, p.router, p.focus];
    output := JoinInjection(base + [allChanges, p.lessons]);
    if Bytes(output) <= TOTAL_BYTES {
      return;
    }
    output := JoinInjection(base + [allChanges, LESSONS_EVICTED]);
    if Bytes(output) <= TOTAL_BYTES {
      return;
    }
    var currentChange := RenderOpenChanges(b, TAG, true, None, LINE_CHARS);
    output := JoinInjection(base + [currentChange, LESSONS_EVICTED, OTHERS_EVICTED]);
    if Bytes(output) <= TOTAL_BYTES {
      return;
    }
    var fixed := JoinInjection(base + [LESSONS_EVICTED, OTHERS_EVICTED, CURRENT_SUMMARIZED]);
    var room := TOTAL_BYTES - Bytes(fixed) - 1;
    var remaining := if room > LEAST_BYTES then room else LEAST_BYTES;
    var bounded := RenderOpenChanges(b, TAG, true, Some(remaining), LINE_CHARS);
    output := JoinInjection(base + [LESSONS_EVICTED, OTHERS_EVICTED, bounded, CURRENT_SUMMARIZED]);
  }
}
