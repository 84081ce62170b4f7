/** Which memory layers stand in the injected memory, and how error and focus texts are cut. */
module InjectionLayers {
  import opened Common
  import opened Frontmatter
  import opened Injection
  import opened InjectionBudget
  import opened InjectionLadder
  import opened InjectionMemory

  // A layer that its validator accepts, within its bytes and with no line above 320 characters.
  ghost predicate Sized(raw: string, bytes: nat) {
    raw != "" && Bytes(raw) <= bytes && forall l | l in Lines(raw) :: |l| <= 320
  }

  ghost predicate CoreValid(rules: Rules, f: Files) {
    Sized(f.core, 4096) && rules.coreOk(f.core)
  }

  ghost predicate SharedValid(rules: Rules, f: Files) {
    Sized(f.shared, 6144) && rules.sharedOk(f.shared)
  }

  // What stands for a layer that is missing or not valid.
  ghost predicate ErrorOf(layer: string, text: string) {
    exists detail :: |detail| <= 260
      && text == "<wk_memory_error layer=\"" + layer + "\" repair=\"wendkeep memory status --gate\">" + detail
                 + "</wk_memory_error>"
  }

  /** A text of at most so many characters stays; a longer one keeps a prefix and says that it was cut. */
  lemma ClippedExactly(detail: string, max: nat)
    requires max >= 20
    ensures |Clipped(detail, max)| <= max
    ensures if |detail| <= max then Clipped(detail, max) == detail
            else Clipped(detail, max) == detail[..max - 20] + " … [erro resumido]"
  {
    assert |SUMMARIZED| <= 20;
  }

  lemma ErrorIs(rules: Rules, layer: string, reasons: seq<string>)
    ensures ErrorOf(layer, SafeError(rules, layer, reasons))
  {
    var detail := Clipped(rules.squeeze(Reasons(reasons)), 260);
    ClippedExactly(rules.squeeze(Reasons(reasons)), 260);
    hide Clipped, Reasons;
    assert SafeError(rules, layer, reasons)
           == "<wk_memory_error layer=\"" + layer + "\" repair=\"wendkeep memory status --gate\">" + detail
              + "</wk_memory_error>";
  }

  // The layer itself if it is valid, else its error.
  ghost predicate Stands(layer: string, raw: string, valid: bool, text: string) {
    if valid then text == raw else ErrorOf(layer, text)
  }

  lemma LayersStand(rules: Rules, f: Files)
    ensures Stands("core", f.core, CoreValid(rules, f), CoreText(rules, f.core))
    ensures Stands("shared", f.shared, SharedValid(rules, f), SharedText(rules, f.shared))
  {
    ErrorIs(rules, "core", if f.core == "" then ["CORE.md ausente"] else rules.reasons("core", f.core));
    ErrorIs(rules, "shared",
            if f.shared == "" then ["SHARED_MEMORY.md ausente"] else rules.reasons("shared", f.shared));
    hide SafeError, Bytes, Lines, ErrorOf;
  }

  // The lines of the memory block.
  ghost predicate BlockHolds(rules: Rules, f: Files, text: string) {
    exists core, shared ::
      && Stands("core", f.core, CoreValid(rules, f), core) && Stands("shared", f.shared, SharedValid(rules, f), shared)
      && text == Join([HeadLine(Revision(rules, f), StateHash(rules, f)),
                       "<wk_memory_contract>", CONTRACT, "</wk_memory_contract>",
                       "<wk_core authority=\"canonical\">", core, "</wk_core>",
                       "<wk_shared_state authority=\"operational\">", shared, "</wk_shared_state>",
                       "<wk_memory_attention>",
                       if CoreValid(rules, f) && SharedValid(rules, f) then "none" else DEGRADED,
                       "</wk_memory_attention>", "<wk_recall>", RECALL_HINT, "</wk_recall>", "</brain_memory>"])
  }

  /**
   The memory of version 2 holds each valid layer in full and an error for every other one, and says which it is; if
   that exceeds the guard of 13824 bytes it is the envelope with its own error instead. No layer is ever cut.
   */
  lemma MemoryHolds(rules: Rules, f: Files)
    requires IsV2(rules, f)
    ensures exists block :: BlockHolds(rules, f, block)
                            && if Bytes(block) <= 13824 then Brain(rules, f) == block
                               else exists error :: ErrorOf("envelope", error)
                                      && Brain(rules, f) == Join([HeadLine(Revision(rules, f), StateHash(rules, f)),
                                                                  error, "</brain_memory>"])
  {
    LayersStand(rules, f);
    ErrorIs(rules, "envelope", [TOO_LARGE]);
    BlockIs(rules, f);
    hide *;
    assert Brain(rules, f) == GuardedMemory(rules, f) by { BrainIs(rules, f); }
    GuardIs(rules, f);
  }

  lemma BlockIs(rules: Rules, f: Files)
    ensures BlockHolds(rules, f, MemoryBlock(rules, f))
  {
    LayersStand(rules, f);
    assert CoreOk(rules, f.core) == CoreValid(rules, f) && SharedOk(rules, f.shared) == SharedValid(rules, f);
    hide Stands, CoreValid, SharedValid, CoreOk, SharedOk, CoreText, SharedText, Join, HeadLine;
  }

  lemma BrainIs(rules: Rules, f: Files)
    ensures Brain(rules, f) == if IsV2(rules, f) then GuardedMemory(rules, f) else LegacyMemory(rules, f)
  {
    hide IsV2, GuardedMemory, LegacyMemory;
  }

  lemma GuardIs(rules: Rules, f: Files)
    ensures if Bytes(MemoryBlock(rules, f)) <= 13824 then GuardedMemory(rules, f) == MemoryBlock(rules, f)
            else GuardedMemory(rules, f) == Join([HeadLine(Revision(rules, f), StateHash(rules, f)),
                                                  SafeError(rules, "envelope", [TOO_LARGE]), "</brain_memory>"])
  {
    hide Bytes, MemoryBlock, Join, HeadLine, SafeError;
  }

  /** The legacy memory holds the core and the digest if they are there, in full if valid and as an error otherwise. */
  lemma LegacyHolds(rules: Rules, f: Files)
    requires !IsV2(rules, f)
    ensures exists core, digest ::
              && (if f.core == "" then core == "" else Stands("core", f.core, CoreValid(rules, f), core))
              && (if f.digest == "" then digest == ""
                  else Stands("digest", f.digest, Sized(f.digest, 4096) && |Lines(f.digest)| <= 15, digest))
              && Brain(rules, f)
                 == Join(Kept(["<brain_memory>", LEGACY_WARNING, core, digest, LEGACY_RECALL, "</brain_memory>"]))
  {
    LayersStand(rules, f);
    ErrorIs(rules, "digest", rules.reasons("digest", f.digest));
    BrainIs(rules, f);
    hide IsV2, Join, Kept, Bytes, Lines, SafeError, ErrorOf, CoreText, GuardedMemory;
    var core := if f.core == "" then "" else CoreText(rules, f.core);
    assert LegacyMemory(rules, f)
           == Join(Kept(["<brain_memory>", LEGACY_WARNING, core, DigestText(rules, f.digest), LEGACY_RECALL,
                         "</brain_memory>"]));
  }

  lemma BoundedExactly(text: string, reserved: nat)
    requires reserved + |SHORTENED| <= LINE_CHARS
    ensures |Bounded(text, reserved)| + reserved <= 320
    ensures |text| + reserved <= 320 ==> Bounded(text, reserved) == text
  {
  }

  function FocusHead(): (s: string)
    ensures |s| == 32
  {
    "Change vinculada a esta sessão: "
  }

  function FocusTail(): (s: string)
    ensures |s| <= 105
  {
    ". Este vínculo prevalece para writes automáticos; todas as pendências continuam visíveis acima."
  }

  function FocusOpen(): (s: string)
    ensures |s| == 16
  {
    "<session_change>"
  }

  function FocusClose(): (s: string)
    ensures |s| == 17
  {
    "</session_change>"
  }

  lemma FocusIs(slug: string)
    requires slug != ""
    ensures 33 + |SHORTENED| <= LINE_CHARS
    ensures Focus(slug) == FocusOpen() + Bounded(FocusHead() + slug + FocusTail(), 33) + FocusClose()
  {
    MarkerShort();
    hide Bounded;
  }

  lemma Surrounds(open: string, head: string, slug: string, tail: string, close: string)
    ensures Inside(slug, open + (head + slug + tail) + close)
  {
    assert open + (head + slug + tail) + close == (open + head) + slug + (tail + close);
  }

  /** The focus names the change of the session within 320 characters, tags included, in full if it is short enough. */
  lemma FocusNames(slug: string)
    requires slug != ""
    ensures |Focus(slug)| <= 320
    ensures |slug| <= 150 ==> Inside(slug, Focus(slug))
  {
    FocusIs(slug);
    BoundedExactly(FocusHead() + slug + FocusTail(), 33);
    Surrounds(FocusOpen(), FocusHead(), slug, FocusTail(), FocusClose());
    hide *;
  }
}
