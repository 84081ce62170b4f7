/** In which order the injected parts give way, and what stands in the output while they do not. */
module InjectionLadder {
  import opened Common
  import opened Frontmatter
  import opened Injection
  import opened InjectionBudget

  // ---------- the order of eviction ----------

  // The non-empty texts, a line feed between them.
  function Shown(p: Parts, more: seq<string>): string {
    Join(Kept([p.brain, p.profileNotice, p.router, p.focus] + more))
  }

  // What is left for the current change beside memory, profile notice, router, focus and the three notices.
  function Room(p: Parts): nat {
    var fixed := Bytes(Shown(p, [LESSONS_EVICTED, OTHERS_EVICTED, CURRENT_SUMMARIZED]));
    if fixed + 513 > 24576 then 512 else 24576 - fixed - 1
  }

  // After the fixed parts: everything; then without the lessons; then without the other changes; then with the
  // current change cut to its room.
  function Rung(p: Parts, b: Backlog, i: nat): seq<string> {
    match i
    case 0 => [Block(b, false, None), p.lessons]
    case 1 => [Block(b, false, None), LESSONS_EVICTED]
    case 2 => [Block(b, true, None), LESSONS_EVICTED, OTHERS_EVICTED]
    case _ => [LESSONS_EVICTED, OTHERS_EVICTED, Block(b, true, Some(Room(p))), CURRENT_SUMMARIZED]
  }

  // The output goes down this far and no further than it must.
  ghost predicate StopsAt(p: Parts, b: Backlog, i: nat, output: string) {
    && i <= 3 && output == Shown(p, Rung(p, b, i))
    && (forall j | 0 <= j < i :: Bytes(Shown(p, Rung(p, b, j))) > 24576)
    && (i < 3 ==> Bytes(output) <= 24576)
  }

  /** Lessons go first, other changes second, the tail of the current change last, each only if it must. */
  lemma EvictionOrder(p: Parts, b: Backlog) returns (i: nat)
    requires p.harness
    ensures StopsAt(p, b, i, Injected(p, b))
  {
    RungsAre(p, b);
    hide Bytes, Block, Shown, Full, WithoutLessons, CurrentOnly, Summarized, Rung;
    i := if Fits(Full(p, b)) then 0 else if Fits(WithoutLessons(p, b)) then 1 else if Fits(CurrentOnly(p, b)) then 2
         else 3;
  }

  lemma StopsBefore(p: Parts, b: Backlog, j: nat) returns (i: nat)
    requires p.harness && j <= 3 && Bytes(Shown(p, Rung(p, b, j))) <= 24576
    ensures i <= j && Injected(p, b) == Shown(p, Rung(p, b, i))
  {
    i := EvictionOrder(p, b);
    hide Bytes, Shown, Rung, Injected;
  }

  lemma RungsAre(p: Parts, b: Backlog)
    ensures Shown(p, Rung(p, b, 0)) == Full(p, b) && Shown(p, Rung(p, b, 1)) == WithoutLessons(p, b)
    ensures Shown(p, Rung(p, b, 2)) == CurrentOnly(p, b) && Shown(p, Rung(p, b, 3)) == Summarized(p, b)
  {
    hide Bytes, Block, Kept, Join;
    assert Room(p) == Remaining(p);
  }

  /** With the harness switched off memory, profile notice and lessons stand alone, whatever their size. */
  lemma HarnessOff(p: Parts, b: Backlog)
    requires !p.harness
    ensures Injected(p, b) == Join(Kept([p.brain, p.profileNotice, p.lessons]))
  {
  }

  // ---------- what stands in the output ----------

  // The text stands somewhere in the other, with or without more around it.
  ghost predicate Inside(part: string, text: string) {
    exists a, b :: text == a + part + b
  }

  lemma InsideTrans(x: string, y: string, z: string)
    requires Inside(x, y) && Inside(y, z)
    ensures Inside(x, z)
  {
    var a, b :| y == a + x + b;
    var c, d :| z == c + y + d;
    assert z == (c + a) + x + (b + d);
  }

  lemma {:induction false} JoinInside(lines: seq<string>, i: nat)
    requires i < |lines|
    ensures Inside(lines[i], Join(lines))
  {
    if |lines| == 1 {
      assert Join(lines) == "" + lines[0] + "";
    } else if i == 0 {
      assert Join(lines) == "" + lines[0] + ("\n" + Join(lines[1..]));
    } else {
      JoinInside(lines[1..], i - 1);
      var a, b :| Join(lines[1..]) == a + lines[i] + b;
      assert Join(lines) == (lines[0] + "\n" + a) + lines[i] + b;
    }
  }

  lemma {:induction false} KeptIn(parts: seq<string>, part: string)
    requires part in parts && part != ""
    ensures part in Kept(parts)
  {
    var n := |parts| - 1;
    if parts[n] != part {
      assert part in parts[..n];
      KeptIn(parts[..n], part);
    }
  }

  lemma PartInside(p: Parts, more: seq<string>, part: string)
    requires part in [p.brain, p.profileNotice, p.router, p.focus] + more
    ensures Inside(part, Shown(p, more))
  {
    var all := [p.brain, p.profileNotice, p.router, p.focus] + more;
    if part == "" {
      assert Shown(p, more) == "" + "" + Shown(p, more);
    } else {
      KeptIn(all, part);
      var i :| 0 <= i < |Kept(all)| && Kept(all)[i] == part;
      hide Kept;
      JoinInside(Kept(all), i);
    }
  }

  /** Memory, profile notice, router and focus are always there in full. */
  lemma FixedStands(p: Parts, b: Backlog, part: string)
    requires p.harness && part in [p.brain, p.profileNotice, p.router, p.focus]
    ensures Inside(part, Injected(p, b))
  {
    hide Inside, Rung, Injected, Bytes, Shown;
    var i := EvictionOrder(p, b);
    PartInside(p, Rung(p, b, i), part);
  }

  /** The lessons stand in full whenever everything together fits. */
  lemma LessonsStand(p: Parts, b: Backlog)
    requires p.harness && Bytes(Shown(p, [Block(b, false, None), p.lessons])) <= 24576
    ensures Inside(p.lessons, Injected(p, b))
  {
    hide Inside, Injected, Bytes, Shown, Block;
    var i := StopsBefore(p, b, 0);
    PartInside(p, Rung(p, b, 0), p.lessons);
  }

  // ---------- the lines of a change ----------

  function Header(c: Change): string {
    "### " + (if c.current then "ATUAL" else "ABERTA") + " — " + c.slug + " (" + Decimal(|c.openTasks|)
    + " aberta(s), " + Decimal(c.doneCount) + " concluída(s))"
  }

  // The header of the change, and its warning, or that nothing is open, or an open task of it.
  ghost predicate Tells(c: Change, line: string) {
    || line == Header(c)
    || (c.warning != "" && line == "- Aviso: " + c.warning + ".")
    || (c.warning == "" && c.openTasks == [] && line == "- Nenhuma tarefa aberta.")
    || (c.warning == "" && exists t :: t in c.openTasks && line == "- [ ] " + t.id + " " + t.text)
  }

  lemma {:induction false} TaskIn(tasks: seq<Task>, t: Task)
    requires t in tasks
    ensures "- [ ] " + t.id + " " + t.text in TaskLines(tasks)
  {
    var n := |tasks| - 1;
    if tasks[n] != t {
      assert t in tasks[..n];
      TaskIn(tasks[..n], t);
    }
  }

  lemma TellsIn(c: Change, line: string)
    requires Tells(c, line)
    ensures line in ChangeLines(c)
  {
    hide Decimal, TaskLines;
    if c.warning == "" && exists t :: t in c.openTasks && line == "- [ ] " + t.id + " " + t.text {
      var t :| t in c.openTasks && line == "- [ ] " + t.id + " " + t.text;
      TaskIn(c.openTasks, t);
    }
  }

  lemma {:induction false} ChangeIn(changes: seq<Change>, c: Change, line: string)
    requires c in changes && line in ChangeLines(c)
    ensures line in AllChangeLines(changes)
  {
    hide ChangeLines;
    var n := |changes| - 1;
    if changes[n] != c {
      assert c in changes[..n];
      ChangeIn(changes[..n], c, line);
    }
  }

  lemma {:induction false} VisibleIn(changes: seq<Change>, currentOnly: bool, c: Change)
    ensures c in Visible(changes, currentOnly) <==> c in changes && (c.current || !currentOnly)
  {
    if changes != [] {
      var n := |changes| - 1;
      VisibleIn(changes[..n], currentOnly, c);
      assert c in changes <==> c in changes[..n] || c == changes[n];
    }
  }

  // Every line of a visible change stands in the uncut block, bounded.
  lemma LineInBlock(b: Backlog, currentOnly: bool, c: Change, line: string)
    requires c in b.changes && (c.current || !currentOnly) && Tells(c, line)
    ensures Inside(BoundLine(line, LINE_CHARS), Block(b, currentOnly, None))
  {
    VisibleIn(b.changes, currentOnly, c);
    TellsIn(c, line);
    ChangeIn(Visible(b.changes, currentOnly), c, line);
    hide Tells, ChangeLines, Visible, AllChangeLines, BoundLine, Inside, Join, Open, Close;
    var lines := BlockLines(b, TAG, currentOnly);
    assert line in lines;
    var i :| 0 <= i < |lines| && lines[i] == line;
    JoinInside(BoundLines(lines, LINE_CHARS), i);
  }

  /** Every change, current or not, stands with all its lines whenever they all fit without the lessons. */
  lemma ChangesStand(p: Parts, b: Backlog, c: Change, line: string)
    requires p.harness && c in b.changes && Tells(c, line)
    requires Bytes(Shown(p, [Block(b, false, None), LESSONS_EVICTED])) <= 24576
    ensures Inside(BoundLine(line, LINE_CHARS), Injected(p, b))
  {
    hide Inside, Injected, Tells, BoundLine, Bytes, Shown, Block;
    var i := StopsBefore(p, b, 1);
    LineInBlock(b, false, c, line);
    PartInside(p, Rung(p, b, i), Block(b, false, None));
    InsideTrans(BoundLine(line, LINE_CHARS), Block(b, false, None), Injected(p, b));
  }

  /** The current change stands with all its lines whenever it fits beside the notices. */
  lemma CurrentStands(p: Parts, b: Backlog, c: Change, line: string)
    requires p.harness && c in b.changes && c.current && Tells(c, line)
    requires Bytes(Shown(p, [Block(b, true, None), LESSONS_EVICTED, OTHERS_EVICTED])) <= 24576
    ensures Inside(BoundLine(line, LINE_CHARS), Injected(p, b))
  {
    hide Inside, Injected, Tells, BoundLine, Bytes, Shown, Block;
    var i := StopsBefore(p, b, 2);
    var only := i == 2;
    LineInBlock(b, only, c, line);
    PartInside(p, Rung(p, b, i), Block(b, only, None));
    InsideTrans(BoundLine(line, LINE_CHARS), Block(b, only, None), Injected(p, b));
  }
}
