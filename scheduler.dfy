/**
 * The template scheduler (bot.py, asana_apply_relative_due_dates and
 * asana_duplicate_project_for_user): after the program-board template is
 * duplicated, every section name is read as a day offset and each task of a
 * section gets the due date `start + offset`. Asana's HTTP responses are
 * inputs: a status code with the parsed list, and the status of each
 * due-date write as a function of task and date. Dates are day numbers.
 */
module TemplateScheduler {
  import opened Wrappers
  import opened Strings
  import opened Store
  import opened BotKeys

  datatype Section = Section(gid: string, name: string)

  /**
   * A task as listed with memberships.section: `memberships` is None when the
   * field is absent, otherwise the list of memberships, each given by the gid
   * of its section (None when the membership has no section gid).
   */
  datatype Task = Task(gid: string, name: string, memberships: Option<seq<Option<string>>>)

  /** A GET response: the status code and the items of its `data` list (empty when missing). */
  datatype Response<T> = Response(status: int, items: seq<T>)

  /** One due-date PUT the pass issued, with the status Asana answered. */
  datatype Write = Write(task: string, due: int, status: int)

  datatype PassOutcome =
    | NotConfigured                     // no access token: nothing fetched
    | SectionsFailed(status: int)       // the sections GET answered >= 300
    | TasksFailed(status: int)          // its tasks GET answered >= 300
    | Applied(writes: seq<Write>)       // the pass ran over every task
    | Crashed(writes: seq<Write>)       // a task with an empty membership list raised IndexError

  // -------------------------------------------------------------------
  // Section name -> day offset
  // -------------------------------------------------------------------

  const START_MARKER := "on project start date"
  const DAYS_AFTER := "days after"
  const DAY_PREFIX := "day "

  /** Python's int() with the fallback the source's bare `except` gives it. */
  function IntOr0(s: string): int {
    ParsePyInt(s).GetOr(0)
  }

  /**
   * The offset of one section, decided on the lowercased name, first match wins:
   * "on project start date" anywhere is 0; "<N> days after" is N, not clamped;
   * a name starting "day " is N - 1 clamped at 0, with N read between the first
   * and second "day"; anything else, and any unparseable number, is 0.
   */
  function SectionOffset(name: string): int {
    var n := Lower(name);
    if Contains(n, START_MARKER) then 0
    else if Contains(n, DAYS_AFTER) then IntOr0(Trim(Split(n, DAYS_AFTER)[0]))
    else if DAY_PREFIX <= n then
      var k := IntOr0(Split(n, "day")[1]);
      if k - 1 > 0 then k - 1 else 0
    else 0
  }

  /** The pieces of a "days after" name: the number is the text before the first occurrence. */
  lemma DaysAfterReadsPrefix(name: string)
    requires !Contains(Lower(name), START_MARKER) && Contains(Lower(name), DAYS_AFTER)
    ensures var n := Lower(name);
      SectionOffset(name) == IntOr0(Trim(n[..IndexOf(n, DAYS_AFTER).value]))
  {
    SplitHead(Lower(name), DAYS_AFTER);
  }

  /** Only the "days after" rule can give a negative offset; the "day N" rule never does. */
  lemma OffsetNonNegativeOutsideDaysAfter(name: string)
    requires !Contains(Lower(name), DAYS_AFTER) || Contains(Lower(name), START_MARKER)
    ensures SectionOffset(name) >= 0
  {
  }

  lemma LowerIdempotent(s: string)
    ensures Lower(Lower(s)) == Lower(s)
  {
  }

  /** The rule reads the lowercased name, so case never matters. */
  lemma OffsetIgnoresCase(name: string)
    ensures SectionOffset(Lower(name)) == SectionOffset(name)
  {
    LowerIdempotent(name);
  }

  lemma NotContainsShort(s: string, sub: string)
    requires |s| < |sub|
    ensures !Contains(s, sub)
  {
  }

  /** The worked example: these four names give offsets 0, 2, 2 and 0. */
  lemma ExampleStartDate()
    ensures SectionOffset("On Project Start Date") == 0
  {
    var a := Lower("On Project Start Date");
    assert a == START_MARKER;
    assert OccursAt(a, START_MARKER, 0);
  }

  lemma ExampleDaysAfter()
    ensures SectionOffset("2 days after") == 2
  {
    var b := Lower("2 days after");
    assert b == "2 days after";
    NotContainsShort(b, START_MARKER);
    DaysAfterAt2(b);
    DaysAfterPiece(b);
    TrimDigit("2 ", '2');
  }

  lemma DaysAfterPiece(b: string)
    requires b == "2 days after"
    ensures Split(b, DAYS_AFTER)[0] == "2 "
  {
    DaysAfterAt2(b);
    SplitHead(b, DAYS_AFTER);
    assert b[..2] == "2 ";
  }

  lemma DaysAfterAt2(b: string)
    requires b == "2 days after"
    ensures IndexOf(b, DAYS_AFTER) == Some(2)
  {
    assert OccursAt(b, DAYS_AFTER, 2);
    assert b[0..10][0] != DAYS_AFTER[0] && b[1..11][0] != DAYS_AFTER[0];
  }

  lemma ExampleDayN()
    ensures SectionOffset("Day 3") == 2
  {
    var c := Lower("Day 3");
    assert c == "day 3";
    NotContainsShort(c, START_MARKER);
    NotContainsShort(c, DAYS_AFTER);
    assert DAY_PREFIX <= c;
    assert OccursAt(c, "day", 0);
    assert IndexOf(c, "day") == Some(0);
    NotContainsShort(" 3", "day");
    assert c[3..] == " 3";
    assert Split(c, "day")[1] == Split(" 3", "day")[0] == " 3";
    TrimDigit(" 3", '3');
  }

  lemma ExampleOther()
    ensures SectionOffset("garbage") == 0
  {
    var d := Lower("garbage");
    assert d == "garbage";
    NotContainsShort(d, START_MARKER);
    NotContainsShort(d, DAYS_AFTER);
    assert d[0] != DAY_PREFIX[0];
  }

  /** A single digit with one space beside it parses as that digit. */
  lemma TrimDigit(s: string, c: char)
    requires IsDigit(c) && (s == [c, ' '] || s == [' ', c])
    ensures IntOr0(s) == (c as int) - ('0' as int)
  {
    if s == [c, ' '] {
      assert TrimStart(s) == s;
      assert s[..1] == [c];
      assert TrimEnd(s) == TrimEnd([c]) == [c];
    } else {
      assert s[1..] == [c];
      assert TrimStart(s) == TrimStart([c]) == [c];
      assert TrimEnd([c]) == [c];
    }
    assert Trim(s) == [c];
    assert DigitsValue([c]) == (c as int) - ('0' as int);
  }

  // -------------------------------------------------------------------
  // The offsets dictionary (bot.py:24-44)
  // -------------------------------------------------------------------

  /** `offsets` after the loop over the first |secs| sections; a repeated gid keeps the later section's offset. */
  function OffsetsOf(secs: seq<Section>): map<string, int> {
    if secs == [] then map[]
    else OffsetsOf(secs[..|secs| - 1])[secs[|secs| - 1].gid := SectionOffset(secs[|secs| - 1].name)]
  }

  /** Every listed section has an entry and nothing else has one. */
  lemma {:induction false} OffsetsOfKeys(secs: seq<Section>, g: string)
    ensures g in OffsetsOf(secs) <==> exists i :: 0 <= i < |secs| && secs[i].gid == g
  {
    if secs != [] {
      var init := secs[..|secs| - 1];
      OffsetsOfKeys(init, g);
      if g in OffsetsOf(init) {
        var i :| 0 <= i < |init| && init[i].gid == g;
        assert secs[i] == init[i];
      }
      if exists i :: 0 <= i < |secs| && secs[i].gid == g {
        var i :| 0 <= i < |secs| && secs[i].gid == g;
        if i < |init| {
          assert init[i] == secs[i];
        }
      }
    }
  }

  /** A section's entry is its own offset when no later section has the same gid. */
  lemma {:induction false} OffsetsOfLastWins(secs: seq<Section>, i: nat)
    requires i < |secs|
    requires forall j :: i < j < |secs| ==> secs[j].gid != secs[i].gid
    ensures secs[i].gid in OffsetsOf(secs) && OffsetsOf(secs)[secs[i].gid] == SectionOffset(secs[i].name)
  {
    var init := secs[..|secs| - 1];
    if i < |init| {
      assert init[i] == secs[i];
      forall j | i < j < |init|
        ensures init[j].gid != init[i].gid
      {
        assert init[j] == secs[j];
      }
      OffsetsOfLastWins(init, i);
    }
  }

  /** The first loop of the pass: one entry per section, in list order. */
  method BuildOffsets(secs: seq<Section>) returns (offsets: map<string, int>)
    ensures offsets == OffsetsOf(secs)
  {
    offsets := map[];
    var i := 0;
    while i < |secs|
      invariant 0 <= i <= |secs|
      invariant offsets == OffsetsOf(secs[..i])
    {
      assert secs[..i + 1][..i] == secs[..i];
      offsets := offsets[secs[i].gid := SectionOffset(secs[i].name)];
      i := i + 1;
    }
    assert secs[..i] == secs;
  }

  // -------------------------------------------------------------------
  // Task pass (bot.py:53-68)
  // -------------------------------------------------------------------

  /**
   * `task.get("memberships", [{}])[0].get("section", {}).get("gid")`: None when
   * the membership list is present but empty (the index raises), otherwise the
   * section gid it finds, if any.
   */
  function FirstSectionGid(t: Task): Option<Option<string>> {
    match t.memberships
    case None => Some(None)
    case Some(ms) => if ms == [] then None else Some(ms[0])
  }

  /** A task is written exactly when its first membership names a section that has an offset. */
  predicate Resolves(t: Task, offsets: map<string, int>) {
    var f := FirstSectionGid(t);
    f.Some? && f.value.Some? && f.value.value in offsets
  }

  /** The due dates the pass computes for its tasks, in order, and whether it stopped on a raise. */
  datatype Plan = Plan(dues: seq<(string, int)>, crashed: bool)

  /** The plan after task t: a raise stops it, a resolving task adds its due date, any other task is skipped. */
  function PlanStep(p: Plan, t: Task, offsets: map<string, int>, start: int): Plan {
    if p.crashed then p
    else if FirstSectionGid(t).None? then Plan(p.dues, true)
    else if Resolves(t, offsets) then Plan(p.dues + [(t.gid, start + offsets[FirstSectionGid(t).value.value])], false)
    else p
  }

  function PlanOf(offsets: map<string, int>, tasks: seq<Task>, start: int): Plan {
    if tasks == [] then Plan([], false)
    else PlanStep(PlanOf(offsets, tasks[..|tasks| - 1], start), tasks[|tasks| - 1], offsets, start)
  }

  lemma PlanSnoc(offsets: map<string, int>, tasks: seq<Task>, start: int, i: nat)
    requires i < |tasks|
    ensures PlanOf(offsets, tasks[..i + 1], start) == PlanStep(PlanOf(offsets, tasks[..i], start), tasks[i], offsets, start)
  {
    assert tasks[..i + 1][..i] == tasks[..i];
  }

  /** The due date a resolving task is planned with. */
  predicate PlannedFor(t: Task, offsets: map<string, int>, start: int, entry: (string, int)) {
    Resolves(t, offsets) && entry == (t.gid, start + offsets[FirstSectionGid(t).value.value])
  }

  /** Every planned due date belongs to a task that resolves, and it is start plus that task's section offset. */
  lemma {:induction false} PlannedTasksResolve(offsets: map<string, int>, tasks: seq<Task>, start: int, k: nat)
    requires k < |PlanOf(offsets, tasks, start).dues|
    ensures exists i :: 0 <= i < |tasks| && PlannedFor(tasks[i], offsets, start, PlanOf(offsets, tasks, start).dues[k])
  {
    var init := tasks[..|tasks| - 1];
    var p := PlanOf(offsets, init, start);
    if k < |p.dues| {
      PlannedTasksResolve(offsets, init, start, k);
      var i :| 0 <= i < |init| && PlannedFor(init[i], offsets, start, p.dues[k]);
      assert init[i] == tasks[i];
      assert PlanOf(offsets, tasks, start).dues[k] == p.dues[k];
    } else {
      assert PlannedFor(tasks[|tasks| - 1], offsets, start, PlanOf(offsets, tasks, start).dues[k]);
    }
  }

  /** A task id none of whose tasks resolves is never given a due date. */
  lemma UnresolvedNeverPlanned(offsets: map<string, int>, tasks: seq<Task>, start: int, g: string)
    requires forall i :: 0 <= i < |tasks| && tasks[i].gid == g ==> !Resolves(tasks[i], offsets)
    ensures forall k :: 0 <= k < |PlanOf(offsets, tasks, start).dues| ==> PlanOf(offsets, tasks, start).dues[k].0 != g
  {
    forall k | 0 <= k < |PlanOf(offsets, tasks, start).dues|
      ensures PlanOf(offsets, tasks, start).dues[k].0 != g
    {
      PlannedTasksResolve(offsets, tasks, start, k);
    }
  }

  /** When no task has an empty membership list, every resolving task is planned, whatever the other tasks are. */
  lemma {:induction false} ResolvingTasksPlanned(offsets: map<string, int>, tasks: seq<Task>, start: int, i: nat)
    requires i < |tasks| && Resolves(tasks[i], offsets)
    requires !PlanOf(offsets, tasks, start).crashed
    ensures (tasks[i].gid, start + offsets[FirstSectionGid(tasks[i]).value.value]) in PlanOf(offsets, tasks, start).dues
  {
    var init := tasks[..|tasks| - 1];
    if i < |tasks| - 1 {
      assert init[i] == tasks[i];
      ResolvingTasksPlanned(offsets, init, start, i);
    }
  }

  /** The writes issued for a plan: one PUT per planned date, answered by `put`. */
  function Attempts(dues: seq<(string, int)>, put: (string, int) -> int): (ws: seq<Write>)
    ensures |ws| == |dues|
    ensures forall k :: 0 <= k < |dues| ==> ws[k] == Write(dues[k].0, dues[k].1, put(dues[k].0, dues[k].1))
  {
    seq(|dues|, k requires 0 <= k < |dues| => Write(dues[k].0, dues[k].1, put(dues[k].0, dues[k].1)))
  }

  lemma AttemptsSnoc(dues: seq<(string, int)>, e: (string, int), put: (string, int) -> int)
    ensures Attempts(dues + [e], put) == Attempts(dues, put) + [Write(e.0, e.1, put(e.0, e.1))]
  {
  }

  /** The due dates in Asana after the writes: a write that answered < 300 sets that task's date. */
  function DueDatesAfter(due: map<string, int>, ws: seq<Write>): map<string, int> {
    if ws == [] then due
    else
      var d := DueDatesAfter(due, ws[..|ws| - 1]);
      var w := ws[|ws| - 1];
      if w.status < 300 then d[w.task := w.due] else d
  }

  /** A task that is not written keeps whatever due date it had. */
  lemma {:induction false} UnwrittenKeepsDueDate(due: map<string, int>, ws: seq<Write>, g: string)
    requires forall k :: 0 <= k < |ws| ==> ws[k].task != g
    ensures g in DueDatesAfter(due, ws) <==> g in due
    ensures g in due ==> DueDatesAfter(due, ws)[g] == due[g]
  {
    if ws != [] {
      UnwrittenKeepsDueDate(due, ws[..|ws| - 1], g);
    }
  }

  /**
   * asana_apply_relative_due_dates: nothing without a token; a failed sections or
   * tasks fetch stops before any write; otherwise one PUT per resolving task, in
   * task order, whatever earlier PUTs answered, until a task with an empty
   * membership list raises.
   */
  method ApplyRelativeDueDates(tokenSet: bool, sections: Response<Section>, tasks: Response<Task>,
                               start: int, put: (string, int) -> int) returns (out: PassOutcome)
    ensures !tokenSet ==> out == NotConfigured
    ensures tokenSet && sections.status >= 300 ==> out == SectionsFailed(sections.status)
    ensures tokenSet && sections.status < 300 && tasks.status >= 300 ==> out == TasksFailed(tasks.status)
    ensures tokenSet && sections.status < 300 && tasks.status < 300 ==>
      var p := PlanOf(OffsetsOf(sections.items), tasks.items, start);
      out == if p.crashed then Crashed(Attempts(p.dues, put)) else Applied(Attempts(p.dues, put))
  {
    if !tokenSet {
      return NotConfigured;
    }
    if sections.status >= 300 {
      return SectionsFailed(sections.status);
    }
    var offsets := BuildOffsets(sections.items);
    if tasks.status >= 300 {
      return TasksFailed(tasks.status);
    }
    var writes, crashed := WriteDueDates(offsets, tasks.items, start, put);
    out := if crashed then Crashed(writes) else Applied(writes);
  }

  /** Loop over tasks: one PUT per resolving task, stopping at the first empty membership list. */
  method WriteDueDates(offsets: map<string, int>, ts: seq<Task>, start: int, put: (string, int) -> int)
    returns (writes: seq<Write>, crashed: bool)
    ensures var p := PlanOf(offsets, ts, start);
      writes == Attempts(p.dues, put) && crashed == p.crashed
  {
    ghost var dues: seq<(string, int)> := [];
    writes := [];
    crashed := false;
    var i := 0;
    while i < |ts| && !crashed
      invariant 0 <= i <= |ts|
      invariant PlanOf(offsets, ts[..i], start) == Plan(dues, crashed)
      invariant writes == Attempts(dues, put)
      invariant crashed ==> PlanOf(offsets, ts, start) == Plan(dues, crashed)
    {
      PlanSnoc(offsets, ts, start, i);
      var t := ts[i];
      var first := FirstSectionGid(t);
      if first.None? {
        crashed := true;
      } else if first.value.Some? && first.value.value in offsets {
        var d := start + offsets[first.value.value];
        var status := put(t.gid, d);
        AttemptsSnoc(dues, (t.gid, d), put);
        dues := dues + [(t.gid, d)];
        writes := writes + [Write(t.gid, d, status)];
      }
      i := i + 1;
      if crashed {
        CrashedPlanStays(offsets, ts, start, i);
      }
    }
    if !crashed {
      assert ts[..i] == ts;
    }
  }

  /** Once the pass has raised, later tasks change nothing. */
  lemma {:induction false} CrashedPlanStays(offsets: map<string, int>, tasks: seq<Task>, start: int, i: nat)
    requires i <= |tasks| && PlanOf(offsets, tasks[..i], start).crashed
    ensures PlanOf(offsets, tasks, start) == PlanOf(offsets, tasks[..i], start)
    decreases |tasks| - i
  {
    if i < |tasks| {
      assert tasks[..i + 1][..i] == tasks[..i];
      CrashedPlanStays(offsets, tasks, start, i + 1);
    } else {
      assert tasks[..i] == tasks;
    }
  }

  // -------------------------------------------------------------------
  // Duplication (bot.py:71-119)
  // -------------------------------------------------------------------

  /** The duplicate POST's answer: its status and `data.new_project.gid`, None when any level is missing. */
  datatype DupResponse = DupResponse(status: int, newGid: Option<string>)

  /** What Asana answers during one duplication. */
  datatype AsanaWorld = AsanaWorld(
    tokenSet: bool,
    templateSet: bool,
    duplicate: DupResponse,
    sections: Response<Section>,
    tasks: Response<Task>,
    put: (string, int) -> int,
    today: int)

  datatype DupResult =
    | NoBoard                                      // returned None
    | Board(url: string, pass: PassOutcome)        // returned the board URL
    | DupRaised(pass: PassOutcome)                 // the due-date pass raised through

  function BoardUrl(gid: string): string {
    "https://app.asana.com/0/" + gid + "/list"
  }

  /** The due-date pass's outcome on a new project, the token being set. */
  function DueDatePass(sections: Response<Section>, tasks: Response<Task>, start: int, put: (string, int) -> int): PassOutcome {
    if sections.status >= 300 then SectionsFailed(sections.status)
    else if tasks.status >= 300 then TasksFailed(tasks.status)
    else
      var p := PlanOf(OffsetsOf(sections.items), tasks.items, start);
      if p.crashed then Crashed(Attempts(p.dues, put)) else Applied(Attempts(p.dues, put))
  }

  /** A configured token and template, a duplicate answering < 300 and a non-empty new project gid. */
  predicate BoardRequested(w: AsanaWorld) {
    w.tokenSet && w.templateSet && w.duplicate.status < 300 && w.duplicate.newGid.Some? && w.duplicate.newGid.value != ""
  }

  /**
   * The result of a duplication: no board unless one was requested; then the
   * due-date pass ran, and the board URL of the new gid comes back unless
   * that pass raised.
   */
  predicate DupOutcome(w: AsanaWorld, r: DupResult) {
    && (!BoardRequested(w) ==> r == NoBoard)
    && (BoardRequested(w) ==>
          && !r.NoBoard?
          && r.pass == DueDatePass(w.sections, w.tasks, w.today, w.put)
          && (r.DupRaised? <==> r.pass.Crashed?)
          && (r.Board? ==> r.url == BoardUrl(w.duplicate.newGid.value)))
  }

  /**
   * asana_duplicate_project_for_user: stops with None, storing nothing, when the
   * token or template is missing, the duplication fails or no new project gid
   * comes back; otherwise runs the due-date pass on the new project, adds the
   * member on a best-effort basis (whose failure changes nothing here) and
   * stores the new gid under the user's Asana project key.
   */
  method DuplicateProjectForUser(store: KeyValueStore, uid: int, w: AsanaWorld) returns (r: DupResult)
    modifies store
    ensures DupOutcome(w, r)
    ensures r.Board? ==> store.data == old(store.data)[AsanaProjectKey(uid) := Text(w.duplicate.newGid.value)]
    ensures !r.Board? ==> store.data == old(store.data)
  {
    if !w.tokenSet || !w.templateSet {
      return NoBoard;
    }
    if w.duplicate.status >= 300 {
      return NoBoard;
    }
    if w.duplicate.newGid.None? || w.duplicate.newGid.value == "" {
      return NoBoard;
    }
    var gid := w.duplicate.newGid.value;
    var pass := ApplyRelativeDueDates(true, w.sections, w.tasks, w.today, w.put);
    if pass.Crashed? {
      return DupRaised(pass);
    }
    store.Set(AsanaProjectKey(uid), Text(gid));
    r := Board(BoardUrl(gid), pass);
  }
}
