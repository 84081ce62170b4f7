/**
 The memory part of the injected context (hooks/brain-inject.mjs): two validated layers in a guarded envelope, or the
 legacy layers, and the texts beside them that the budget never cuts.
 */
module InjectionMemory {
  import opened Common
  import opened Frontmatter
  import opened Injection
  import Derived

  const CORE_BYTES: nat := 4096
  const SHARED_BYTES: nat := 6144
  const DIGEST_BYTES: nat := 4096
  const GUARD_BYTES: nat := 4096 + 6144 + 1024 + 512 + 2048

  // Outside decisions: the rules of the two validators beyond sizes, the reasons they give, how white space is
  // squeezed, and how a number is shown.
  datatype Rules = Rules(
    coreOk: string -> bool, sharedOk: string -> bool, reasons: (string, string) -> seq<string>,
    squeeze: string -> string, shownNumber: string -> string)

  // The memory files as read, and whether anything but SHARED_MEMORY.md speaks for version 2.
  datatype Files = Files(core: string, shared: string, digest: string, evidence: bool)

  // ---------- texts ----------

  function Escaped(c: char): string {
    if c == '&' then "&amp;" else if c == '"' then "&quot;" else if c == '<' then "&lt;"
    else if c == '>' then "&gt;" else [c]
  }

  function XmlAttr(s: string): string {
    if s == "" then "" else XmlAttr(s[..|s| - 1]) + Escaped(s[|s| - 1])
  }

  const SUMMARIZED := " … [erro resumido]"

  function Clipped(detail: string, max: nat): string
    requires max >= 20
  {
    if |detail| <= max then detail else detail[..max - 20] + SUMMARIZED
  }

  function Reasons(reasons: seq<string>): string {
    if reasons == [] then "arquivo ausente ou inválido"
    else if |reasons| == 1 then reasons[0]
    else reasons[0] + "; " + Reasons(reasons[1..])
  }

  const ERROR_REPAIR := "\" repair=\"wendkeep memory status --gate\">"

  function SafeError(rules: Rules, layer: string, reasons: seq<string>): string {
    "<wk_memory_error layer=\"" + layer + ERROR_REPAIR + Clipped(rules.squeeze(Reasons(reasons)), 260)
    + "</wk_memory_error>"
  }

  predicate ShortLines(raw: string) {
    forall l | l in Lines(raw) :: |l| <= LINE_CHARS
  }

  // ---------- the layers ----------

  predicate CoreOk(rules: Rules, raw: string) {
    raw != "" && rules.coreOk(raw) && Bytes(raw) <= CORE_BYTES && ShortLines(raw)
  }

  function CoreText(rules: Rules, raw: string): string {
    if CoreOk(rules, raw) then raw
    else SafeError(rules, "core", if raw == "" then ["CORE.md ausente"] else rules.reasons("core", raw))
  }

  predicate SharedOk(rules: Rules, raw: string) {
    raw != "" && rules.sharedOk(raw) && Bytes(raw) <= SHARED_BYTES && ShortLines(raw)
  }

  function SharedText(rules: Rules, raw: string): string {
    if SharedOk(rules, raw) then raw
    else SafeError(rules, "shared", if raw == "" then ["SHARED_MEMORY.md ausente"] else rules.reasons("shared", raw))
  }

  predicate DigestOk(raw: string) {
    |Lines(raw)| <= 15 && Bytes(raw) <= DIGEST_BYTES && ShortLines(raw)
  }

  function DigestText(rules: Rules, raw: string): string {
    if raw == "" || DigestOk(raw) then raw else SafeError(rules, "digest", rules.reasons("digest", raw))
  }

  // ---------- the metadata of SHARED, valid or not ----------

  // Where the front matter closes: three dashes alone on a line.
  function CloseAt(s: string): (i: nat)
    ensures i <= |s|
  {
    if |s| < 4 then |s|
    else if s[..4] == "\n---" && (|s| == 4 || s[4] == '\n') then 0
    else 1 + CloseAt(s[1..])
  }

  function Meta(raw: string): Option<string> {
    if !("---\n" <= raw) then None
    else
      var i := CloseAt(raw[4..]);
      if i + 4 <= |raw| - 4 then Some(raw[4..][..i]) else None
  }

  function ColonAt(line: string): (i: nat)
    ensures i <= |line| && (forall k | 0 <= k < i :: line[k] != ':') && (i < |line| ==> line[i] == ':')
  {
    if line == "" || line[0] == ':' then 0 else 1 + ColonAt(line[1..])
  }

  function TrimStart(s: string): (r: string)
    ensures |r| <= |s|
  {
    if s != "" && IsSpace(s[0]) then TrimStart(s[1..]) else s
  }

  function Trim(s: string): (r: string)
    ensures |r| <= |s|
  {
    TrimStart(Derived.TrimEnd(s))
  }

  // The last line of this key; a line needs something before its colon.
  function FieldIn(lines: seq<string>, key: string): Option<string> {
    if lines == [] then None
    else
      var line := lines[|lines| - 1];
      var at := ColonAt(line);
      if 0 < at < |line| && Trim(line[..at]) == key then Some(Trim(line[at + 1..]))
      else FieldIn(lines[..|lines| - 1], key)
  }

  predicate IsInteger(s: string) {
    var digits := if "-" <= s then s[1..] else s;
    digits != "" && forall c | c in digits :: '0' <= c <= '9'
  }

  function Field(rules: Rules, raw: string, key: string): string {
    var meta := Meta(raw);
    var field := if meta.Some? then FieldIn(Lines(meta.value), key) else None;
    if field.None? then "unknown" else if IsInteger(field.value) then rules.shownNumber(field.value) else field.value
  }

  // ---------- version 2 ----------

  function HeadLine(revision: string, hash: string): string {
    "<brain_memory version=\"2\" revision=\"" + XmlAttr(revision) + "\" state_hash=\"" + XmlAttr(hash) + "\">"
  }

  const CONTRACT := "CORE é canônico e SHARED é operacional; nenhum deles pode ser inferido de wikilinks ou truncado."
  const DEGRADED := "Memória degradada: repare os erros bloqueantes acima antes de confiar no estado operacional."
  const RECALL_HINT := "Memória profunda sob demanda: /brain-recall <tópico> (índice .brain/index.jsonl; DIGEST é apenas recall)."
  const TOO_LARGE := "envelope de memória excedeu o budget reservado"

  function Revision(rules: Rules, f: Files): string {
    Field(rules, f.shared, "revision")
  }

  function StateHash(rules: Rules, f: Files): string {
    Field(rules, f.shared, "state_hash")
  }

  function MemoryBlock(rules: Rules, f: Files): string {
    Join([HeadLine(Revision(rules, f), StateHash(rules, f)),
          "<wk_memory_contract>", CONTRACT, "</wk_memory_contract>",
          "<wk_core authority=\"canonical\">", CoreText(rules, f.core), "</wk_core>",
          "<wk_shared_state authority=\"operational\">", SharedText(rules, f.shared), "</wk_shared_state>",
          "<wk_memory_attention>",
          if CoreOk(rules, f.core) && SharedOk(rules, f.shared) then "none" else DEGRADED,
          "</wk_memory_attention>", "<wk_recall>", RECALL_HINT, "</wk_recall>", "</brain_memory>"])
  }

  function Envelope(rules: Rules, revision: string, hash: string): string {
    Join([HeadLine(revision, hash), SafeError(rules, "envelope", [TOO_LARGE]), "</brain_memory>"])
  }

  predicate TooLarge(rules: Rules, f: Files) {
    Bytes(MemoryBlock(rules, f)) > GUARD_BYTES
  }

  // The guard replaces what is too large, but keeps the metadata.
  function GuardedMemory(rules: Rules, f: Files): string {
    if TooLarge(rules, f) then Envelope(rules, Revision(rules, f), StateHash(rules, f)) else MemoryBlock(rules, f)
  }

  // ---------- legacy, and which of the two ----------

  const LEGACY_WARNING :=
    "<wk_memory_legacy_warning>Vault legado: CORE+DIGEST será removido após uma release; migre para SHARED_MEMORY v2.</wk_memory_legacy_warning>"
  const LEGACY_RECALL := "Memória profunda sob demanda: /brain-recall <tópico> (índice .brain/index.jsonl)."

  function LegacyMemory(rules: Rules, f: Files): string {
    Join(Kept(["<brain_memory>", LEGACY_WARNING, if f.core == "" then "" else CoreText(rules, f.core),
               DigestText(rules, f.digest), LEGACY_RECALL, "</brain_memory>"]))
  }

  // A line of one of the fields that only version 2 has.
  predicate SignedLine(line: string) {
    exists name | name in ["schema_version", "event_cursor", "state_hash"] ::
      name <= line && ":" <= TrimStart(line[|name|..])
  }

  predicate IsV2(rules: Rules, f: Files) {
    SharedOk(rules, f.shared) || (exists l | l in Lines(f.shared) :: SignedLine(l)) || f.evidence
  }

  function Brain(rules: Rules, f: Files): string {
    if IsV2(rules, f) then GuardedMemory(rules, f) else LegacyMemory(rules, f)
  }

  // ---------- what stands beside the memory ----------

  datatype Diagnostic = Diagnostic(code: string, message: string)

  // A session as the injection sees it: `english` is set where the profile asks for a change at all.
  datatype Setup = Setup(files: Files, diagnostic: Option<Diagnostic>, english: Option<bool>, sessionChange: string)

  function ProfileNotice(rules: Rules, d: Option<Diagnostic>): string {
    if d.None? then ""
    else "<wk_profile_error code=\"" + XmlAttr(d.value.code) + "\" fallback=\"GOVERN\" repair=\"wendkeep doctor\">"
         + Clipped(Trim(rules.squeeze(d.value.message)), 320) + "</wk_profile_error>"
  }

  const ROUTER_EN := [
    "<wk_process>",
    "Proportional process: INVOKE the wk-workflow Skill BEFORE editing any file.",
    "1. Classify work kind independently from profile: inspection, maintenance, implementation, delivery, or recovery.",
    "2. Delivery of approved code uses `wendkeep delivery start/finish` and a receipt, without a new change/spec. "
    + "For implementation, use wk-brainstorming + wk-planning, declare spec_impact, then select FLOW, "
    + "`wendkeep change new --guide`, or GOVERN/ASSURE according to contract impact.",
    "3. Implement: wk-tdd per task; tick `- [x]` as you finish. Something broke? wk-debugging.",
    "4. Close: `wendkeep verify` (+ `--deep` + the wk-verify Skill) → `wendkeep change archive`.",
    "NEVER `archive --force` on your own — a red gate means pending work; --force is the user's call, not yours. "
    + "Dead end? `wendkeep change abandon`.",
    "</wk_process>"]

  const ROUTER_PT := [
    "<wk_process>",
    "Processo proporcional: INVOQUE a Skill wk-workflow ANTES de editar qualquer arquivo.",
    "1. Classifique work kind independentemente do perfil: inspection, maintenance, implementation, delivery ou recovery.",
    "2. Entrega de código aprovado usa `wendkeep delivery start/finish` e receipt, sem nova change/spec. "
    + "Em implementation, use wk-brainstorming + wk-planning, declare spec_impact e escolha FLOW, "
    + "`wendkeep change new --guide` ou GOVERN/ASSURE conforme impacto de contrato.",
    "3. Implementar: wk-tdd por tarefa; marque `- [x]` ao concluir. Quebrou algo? wk-debugging.",
    "4. Fechar: `wendkeep verify` (+ `--deep` + Skill wk-verify) → `wendkeep change archive`.",
    "PROIBIDO `archive --force` por conta própria — gate vermelho significa trabalho pendente; --force é decisão do usuário, "
    + "não sua. Beco sem saída? `wendkeep change abandon`.",
    "</wk_process>"]

  function Router(english: Option<bool>): string {
    if english.None? then "" else Join(if english.value then ROUTER_EN else ROUTER_PT)
  }

  function Bounded(text: string, reserved: nat): string
    requires reserved + |SHORTENED| <= LINE_CHARS
  {
    if |text| + reserved <= LINE_CHARS then text else text[..LINE_CHARS - reserved - |SHORTENED|] + SHORTENED
  }

  function FocusText(slug: string): string {
    "Change vinculada a esta sessão: " + slug
    + ". Este vínculo prevalece para writes automáticos; todas as pendências continuam visíveis acima."
  }

  lemma MarkerShort()
    ensures |SHORTENED| == 31
  {
  }

  function Focus(slug: string): string {
    MarkerShort();
    if slug == "" then "" else "<session_change>" + Bounded(FocusText(slug), 33) + "</session_change>"
  }

  function PartsOf(rules: Rules, s: Setup, lessons: string): Parts {
    Parts(true, Brain(rules, s.files), ProfileNotice(rules, s.diagnostic), Router(s.english), Focus(s.sessionChange),
        lessons)
  }
}
