/**
 * Daily checklists: rows of the checklist, task, template and comment
 * tables, the status patch a task update writes, the join that attaches
 * tasks to their checklist for display, the daily instantiation from
 * templates, drag-and-drop assignment of staff to a task, and comments.
 */
module Checklists {
  import opened Util

  datatype TaskStatus = Pending | InProgress | Completed | Skipped
  datatype Rating = BelowExpectations | MetExpectations | ExceededExpectations
  /** A checklist's `status` column: 'pending', 'in_progress', 'completed' or 'overdue'. */
  datatype ChecklistStatus = ChecklistPending | ChecklistInProgress | ChecklistCompleted | ChecklistOverdue
  datatype CommentType = Note | Issue | Feedback | Instruction

  datatype Profile = Profile(id: string, firstName: string, lastName: string, role: string)

  datatype TaskRow = TaskRow(
    id: string,
    checklistId: string,
    templateTaskId: Option<string>,
    title: string,
    description: string,
    assignedTo: Option<string>,
    status: TaskStatus,
    rating: Option<Rating>,
    estimatedMinutes: int,
    actualMinutes: Option<int>,
    isCritical: bool,
    orderIndex: int,
    startedAt: Option<int>,
    completedAt: Option<int>,
    completedBy: Option<string>)

  datatype CommentRow = CommentRow(
    id: string, taskId: string, profileId: string, comment: string, commentType: CommentType, createdAt: int)

  datatype ChecklistRow = ChecklistRow(
    id: string,
    templateId: string,
    storeId: string,
    date: string,
    status: ChecklistStatus,
    startedAt: Option<int>,
    completedAt: Option<int>)

  datatype TemplateTask = TemplateTask(
    id: string, title: string, description: string, estimatedMinutes: int, isCritical: bool, orderIndex: int)

  datatype Template = Template(
    id: string,
    storeId: string,
    name: string,
    description: string,
    checklistType: string,
    isActive: bool,
    tasks: seq<TemplateTask>)

  /** The part of a template a checklist card shows. */
  datatype TemplateInfo = TemplateInfo(name: string, description: string, checklistType: string)

  datatype EnrichedTask = EnrichedTask(
    row: TaskRow, assignee: Option<Profile>, completer: Option<Profile>, comments: seq<CommentRow>)

  datatype EnrichedChecklist = EnrichedChecklist(row: ChecklistRow, template: TemplateInfo, tasks: seq<EnrichedTask>)

  // ---------------------------------------------------------------------
  // The status patch
  // ---------------------------------------------------------------------

  /** The fields an update of a task's status writes; `None` means the field is not written. */
  datatype StatusPatch = StatusPatch(
    status: TaskStatus,
    completedBy: Option<string>,
    startedAt: Option<int>,
    completedAt: Option<int>,
    rating: Option<Rating>)

  /** `profile?.id || null`: an absent profile or an empty id writes null. */
  function ActorId(actor: Option<Profile>): (r: Option<string>)
    ensures r.Some? <==> actor.Some? && actor.value.id != ""
    ensures r.Some? ==> r.value == actor.value.id
  {
    if actor.Some? && actor.value.id != "" then Some(actor.value.id) else None
  }

  /**
   * The `updates` object of updateTaskStatus. Status and completed_by are
   * always written (completed_by even when the task is not being
   * completed); in_progress adds the start time, completed adds the
   * completion time and, when one was given, the rating.
   */
  method BuildStatusPatch(status: TaskStatus, actor: Option<Profile>, rating: Option<Rating>, now: int)
    returns (p: StatusPatch)
    ensures p.status == status && p.completedBy == ActorId(actor)
    ensures p.startedAt.Some? <==> status == InProgress
    ensures p.completedAt.Some? <==> status == Completed
    ensures p.startedAt.Some? ==> p.startedAt.value == now
    ensures p.completedAt.Some? ==> p.completedAt.value == now
    ensures p.rating.Some? <==> status == Completed && rating.Some?
    ensures p.rating.Some? ==> p.rating == rating
  {
    p := StatusPatch(status, ActorId(actor), None, None, None);
    if status == InProgress {
      p := p.(startedAt := Some(now));
    } else if status == Completed {
      p := p.(completedAt := Some(now));
      if rating.Some? {
        p := p.(rating := rating);
      }
    }
  }

  /** What the backend does with a patch: written fields replace the row's, the rest stay. */
  function ApplyPatch(row: TaskRow, p: StatusPatch): (r: TaskRow)
    ensures r.status == p.status && r.completedBy == p.completedBy
    ensures r.startedAt == (if p.startedAt.Some? then p.startedAt else row.startedAt)
    ensures r.completedAt == (if p.completedAt.Some? then p.completedAt else row.completedAt)
    ensures r.rating == (if p.rating.Some? then p.rating else row.rating)
    ensures r.(status := row.status, completedBy := row.completedBy, startedAt := row.startedAt,
               completedAt := row.completedAt, rating := row.rating) == row
  {
    row.(status := p.status,
         completedBy := p.completedBy,
         startedAt := if p.startedAt.Some? then p.startedAt else row.startedAt,
         completedAt := if p.completedAt.Some? then p.completedAt else row.completedAt,
         rating := if p.rating.Some? then p.rating else row.rating)
  }

  // ---------------------------------------------------------------------
  // Progress
  // ---------------------------------------------------------------------

  predicate IsCompleted(t: EnrichedTask) {
    t.row.status == Completed
  }

  function CompletedCount(tasks: seq<EnrichedTask>): nat {
    if tasks == [] then 0 else (if IsCompleted(tasks[0]) then 1 else 0) + CompletedCount(tasks[1..])
  }

  /** The completed count is at most the total; it is 0 iff no task is completed and the total iff all are. */
  lemma {:induction false} CompletedCountRange(tasks: seq<EnrichedTask>)
    ensures CompletedCount(tasks) <= |tasks|
    ensures CompletedCount(tasks) == 0 <==> forall i :: 0 <= i < |tasks| ==> !IsCompleted(tasks[i])
    ensures CompletedCount(tasks) == |tasks| <==> forall i :: 0 <= i < |tasks| ==> IsCompleted(tasks[i])
  {
    if tasks != [] {
      CompletedCountRange(tasks[1..]);
      assert forall i :: 1 <= i < |tasks| ==> tasks[i] == tasks[1..][i - 1];
    }
  }

  /** `completed / total * 100` over the reals. */
  function Share(completed: nat, total: nat): (r: real)
    requires total > 0
    ensures r * (total as real) == 100.0 * (completed as real)
  {
    DivScale(completed as real, total as real);
    (completed as real / total as real) * 100.0
  }

  /** getChecklistProgress, over the reals: completed / total * 100, or 0 without tasks. */
  function ChecklistProgress(tasks: seq<EnrichedTask>): (r: real)
    ensures tasks == [] ==> r == 0.0
    ensures tasks != [] ==> r * (|tasks| as real) == 100.0 * (CompletedCount(tasks) as real)
  {
    if |tasks| > 0 then Share(CompletedCount(tasks), |tasks|) else 0.0
  }

  /** Progress lies in [0, 100]; it is 100 exactly when every task is completed and 0 exactly when none is. */
  lemma ProgressBounds(tasks: seq<EnrichedTask>)
    ensures 0.0 <= ChecklistProgress(tasks) <= 100.0
    ensures tasks != [] ==> (ChecklistProgress(tasks) == 100.0 <==> forall i :: 0 <= i < |tasks| ==> IsCompleted(tasks[i]))
    ensures ChecklistProgress(tasks) == 0.0 <==> forall i :: 0 <= i < |tasks| ==> !IsCompleted(tasks[i])
  {
    var r := ChecklistProgress(tasks);
    var n, c := |tasks| as real, CompletedCount(tasks) as real;
    CompletedCountRange(tasks);
    if tasks != [] {
      assert r * n == 100.0 * c;
      assert 0.0 <= c <= n;
      ScaleOrder(0.0, r, n);
      ScaleOrder(r, 100.0, n);
      if c == n {
        ScaleOrder(100.0, r, n);
      }
      if c == 0.0 {
        ScaleOrder(r, 0.0, n);
      }
    }
  }

  lemma DivScale(c: real, n: real)
    requires n > 0.0
    ensures ((c / n) * 100.0) * n == 100.0 * c
  {
    var q := c / n;
    assert q * n == c;
    calc {
      (q * 100.0) * n;
      100.0 * (q * n);
    }
  }

  lemma ScaleOrder(a: real, b: real, n: real)
    requires n > 0.0 && a * n <= b * n
    ensures a <= b
  {
    assert (b - a) * n == b * n - a * n;
    if a > b {
      MulPos(a - b, n);
    }
  }

  lemma MulPos(x: real, y: real)
    requires x > 0.0 && y > 0.0
    ensures x * y > 0.0
  {
  }

  /** A skipped task counts like a pending one: skipping never raises progress. */
  lemma SkippedNotCompleted(tasks: seq<EnrichedTask>, i: nat)
    requires i < |tasks| && tasks[i].row.status == Skipped
    ensures ChecklistProgress(tasks) < 100.0
  {
    ProgressBounds(tasks);
    assert !IsCompleted(tasks[i]);
  }

  // ---------------------------------------------------------------------
  // The enrichment join
  // ---------------------------------------------------------------------

  const UnknownTemplate: TemplateInfo := TemplateInfo("Unknown Template", "", "other")

  function FindTemplate(templates: seq<Template>, id: string): (r: Option<nat>)
    ensures r.Some? ==> r.value < |templates| && templates[r.value].id == id
    ensures r.Some? ==> forall j :: 0 <= j < r.value ==> templates[j].id != id
    ensures r.None? ==> forall j :: 0 <= j < |templates| ==> templates[j].id != id
  {
    if templates == [] then None
    else if templates[0].id == id then Some(0)
    else match FindTemplate(templates[1..], id)
      case None => None
      case Some(k) => Some(k + 1)
  }

  /** `profilesData.find(p => p.id === id)`; a null id matches no profile. */
  function FindProfile(profiles: seq<Profile>, id: Option<string>): (r: Option<Profile>)
    ensures r.Some? ==> id.Some? && r.value.id == id.value && r.value in profiles
    ensures r.None? ==> id.None? || forall j :: 0 <= j < |profiles| ==> profiles[j].id != id.value
  {
    if id.None? || profiles == [] then None
    else if profiles[0].id == id.value then Some(profiles[0])
    else FindProfile(profiles[1..], id)
  }

  function EnrichTask(row: TaskRow, profiles: seq<Profile>, comments: seq<CommentRow>): EnrichedTask {
    EnrichedTask(row, FindProfile(profiles, row.assignedTo), FindProfile(profiles, row.completedBy),
                 Filter(comments, (c: CommentRow) => c.taskId == row.id))
  }

  function EnrichAll(rows: seq<TaskRow>, profiles: seq<Profile>, comments: seq<CommentRow>): (r: seq<EnrichedTask>)
    ensures |r| == |rows|
    ensures forall i :: 0 <= i < |r| ==> r[i] == EnrichTask(rows[i], profiles, comments)
  {
    if rows == [] then [] else [EnrichTask(rows[0], profiles, comments)] + EnrichAll(rows[1..], profiles, comments)
  }

  function TaskOrder(t: EnrichedTask): int {
    t.row.orderIndex
  }

  function RowOrder(r: TaskRow): int {
    r.orderIndex
  }

  function Rows(tasks: seq<EnrichedTask>): (r: seq<TaskRow>)
    ensures |r| == |tasks|
    ensures forall i :: 0 <= i < |r| ==> r[i] == tasks[i].row
  {
    if tasks == [] then [] else [tasks[0].row] + Rows(tasks[1..])
  }

  function OwnTasks(rows: seq<TaskRow>, checklistId: string): seq<TaskRow> {
    Filter(rows, (r: TaskRow) => r.checklistId == checklistId)
  }

  function TemplateFor(templates: seq<Template>, id: string): TemplateInfo {
    match FindTemplate(templates, id)
    case None => UnknownTemplate
    case Some(k) => TemplateInfo(templates[k].name, templates[k].description, templates[k].checklistType)
  }

  /** One checklist of the fetched list, as fetchChecklists builds it for display. */
  function EnrichChecklist(c: ChecklistRow, templates: seq<Template>, rows: seq<TaskRow>,
                           profiles: seq<Profile>, comments: seq<CommentRow>): EnrichedChecklist
  {
    EnrichedChecklist(c, TemplateFor(templates, c.templateId),
                      SortBy(EnrichAll(OwnTasks(rows, c.id), profiles, comments), TaskOrder))
  }

  function Enrich(checklists: seq<ChecklistRow>, templates: seq<Template>, rows: seq<TaskRow>,
                  profiles: seq<Profile>, comments: seq<CommentRow>): (r: seq<EnrichedChecklist>)
    ensures |r| == |checklists|
    ensures forall i :: 0 <= i < |r| ==> r[i] == EnrichChecklist(checklists[i], templates, rows, profiles, comments)
  {
    seq(|checklists|, i requires 0 <= i < |checklists| =>
      EnrichChecklist(checklists[i], templates, rows, profiles, comments))
  }

  /** Enriching commutes with inserting by order index: enrichment keeps the key. */
  lemma {:induction false} InsertCommutes(x: TaskRow, s: seq<TaskRow>, profiles: seq<Profile>, comments: seq<CommentRow>)
    ensures InsertBy(EnrichTask(x, profiles, comments), EnrichAll(s, profiles, comments), TaskOrder)
            == EnrichAll(InsertBy(x, s, RowOrder), profiles, comments)
  {
    var ex := EnrichTask(x, profiles, comments);
    var e := EnrichAll(s, profiles, comments);
    if s == [] || RowOrder(x) <= RowOrder(s[0]) {
      assert InsertBy(x, s, RowOrder) == [x] + s;
      assert InsertBy(ex, e, TaskOrder) == [ex] + e;
      assert ([x] + s)[1..] == s;
      assert EnrichAll([x] + s, profiles, comments) == [ex] + e;
    } else {
      var tail := InsertBy(x, s[1..], RowOrder);
      var e' := EnrichAll(s[1..], profiles, comments);
      InsertCommutes(x, s[1..], profiles, comments);
      assert e[0] == EnrichTask(s[0], profiles, comments) && e[1..] == e';
      assert InsertBy(x, s, RowOrder) == [s[0]] + tail;
      assert InsertBy(ex, e, TaskOrder) == [e[0]] + InsertBy(ex, e', TaskOrder);
      assert ([s[0]] + tail)[1..] == tail;
      assert EnrichAll([s[0]] + tail, profiles, comments) == [e[0]] + EnrichAll(tail, profiles, comments);
    }
  }

  /** Sorting the enriched tasks is enriching the sorted rows: enrichment keeps the key. */
  lemma {:induction false} SortCommutes(s: seq<TaskRow>, profiles: seq<Profile>, comments: seq<CommentRow>)
    ensures SortBy(EnrichAll(s, profiles, comments), TaskOrder) == EnrichAll(SortBy(s, RowOrder), profiles, comments)
  {
    if s != [] {
      var e := EnrichAll(s, profiles, comments);
      assert e[1..] == EnrichAll(s[1..], profiles, comments);
      SortCommutes(s[1..], profiles, comments);
      InsertCommutes(s[0], SortBy(s[1..], RowOrder), profiles, comments);
    }
  }

  /**
   * The join: each checklist keeps its row, shows its template or the
   * "Unknown Template" fallback, and holds exactly the task rows whose
   * checklist id is its own, sorted by ascending order index, each with
   * its assignee, completer and comments attached.
   */
  lemma EnrichJoin(c: ChecklistRow, templates: seq<Template>, rows: seq<TaskRow>,
                   profiles: seq<Profile>, comments: seq<CommentRow>)
    ensures var e := EnrichChecklist(c, templates, rows, profiles, comments);
      && e.row == c
      && (FindTemplate(templates, c.templateId).None? ==> e.template == UnknownTemplate)
      && (forall k :: 0 <= k < |templates| && templates[k].id == c.templateId ==>
            exists j :: 0 <= j <= k && templates[j].id == c.templateId
                        && e.template == TemplateInfo(templates[j].name, templates[j].description, templates[j].checklistType))
      && SortedBy(e.tasks, TaskOrder)
      && multiset(Rows(e.tasks)) == multiset(OwnTasks(rows, c.id))
      && (forall i :: 0 <= i < |e.tasks| ==> e.tasks[i].row.checklistId == c.id)
      && (forall i :: 0 <= i < |e.tasks| ==> e.tasks[i] == EnrichTask(e.tasks[i].row, profiles, comments))
  {
    var ts := SortBy(EnrichAll(OwnTasks(rows, c.id), profiles, comments), TaskOrder);
    var found := FindTemplate(templates, c.templateId);
    forall k | 0 <= k < |templates| && templates[k].id == c.templateId
      ensures exists j :: 0 <= j <= k && templates[j].id == c.templateId
                          && TemplateFor(templates, c.templateId) == TemplateInfo(templates[j].name, templates[j].description, templates[j].checklistType)
    {
      var j := found.value;
      assert j <= k;
    }
    EnrichTasks(OwnTasks(rows, c.id), profiles, comments);
    OwnTasksBelong(rows, c.id);
    forall i | 0 <= i < |ts|
      ensures ts[i].row.checklistId == c.id
    {
      assert Rows(ts)[i] == ts[i].row;
      assert ts[i].row in multiset(OwnTasks(rows, c.id));
    }
  }

  /** The displayed tasks are the given rows, sorted, each enriched. */
  lemma EnrichTasks(own: seq<TaskRow>, profiles: seq<Profile>, comments: seq<CommentRow>)
    ensures var ts := SortBy(EnrichAll(own, profiles, comments), TaskOrder);
      && Rows(ts) == SortBy(own, RowOrder)
      && multiset(Rows(ts)) == multiset(own)
      && (forall i :: 0 <= i < |ts| ==> ts[i] == EnrichTask(ts[i].row, profiles, comments))
  {
    SortCommutes(own, profiles, comments);
  }

  lemma OwnTasksBelong(rows: seq<TaskRow>, checklistId: string)
    ensures forall r | r in multiset(OwnTasks(rows, checklistId)) :: r.checklistId == checklistId
  {
  }

  // ---------------------------------------------------------------------
  // Daily instantiation
  // ---------------------------------------------------------------------

  /** The task row created for a template task (the backend fills the status default, pending). */
  function FromTemplate(checklistId: string, tt: TemplateTask, id: string): TaskRow {
    TaskRow(id, checklistId, Some(tt.id), tt.title, tt.description, None, Pending, None,
            tt.estimatedMinutes, None, tt.isCritical, tt.orderIndex, None, None, None)
  }

  /** The template fields a created task carries. */
  function Origin(row: TaskRow): Option<TemplateTask> {
    if row.templateTaskId.None? then None
    else Some(TemplateTask(row.templateTaskId.value, row.title, row.description,
                           row.estimatedMinutes, row.isCritical, row.orderIndex))
  }

  /** A created task records its template task: title, description, minutes, critical flag and order are copied. */
  lemma CopiesTemplateTask(checklistId: string, tt: TemplateTask, id: string)
    ensures Origin(FromTemplate(checklistId, tt, id)) == Some(tt)
    ensures FromTemplate(checklistId, tt, id).checklistId == checklistId
    ensures FromTemplate(checklistId, tt, id).status == Pending
  {
  }

  function TasksFromTemplate(checklistId: string, tts: seq<TemplateTask>, ids: seq<string>): (r: seq<TaskRow>)
    requires |ids| == |tts|
    ensures |r| == |tts|
    ensures forall i :: 0 <= i < |r| ==> r[i] == FromTemplate(checklistId, tts[i], ids[i])
  {
    seq(|tts|, i requires 0 <= i < |tts| => FromTemplate(checklistId, tts[i], ids[i]))
  }

  predicate HasChecklist(checklists: seq<ChecklistRow>, templateId: string, date: string) {
    exists i :: 0 <= i < |checklists| && checklists[i].templateId == templateId && checklists[i].date == date
  }

  predicate ActiveIn(storeId: string, t: Template) {
    t.storeId == storeId && t.isActive
  }

  /** The active templates of a store, in table order. */
  function ActiveTemplates(templates: seq<Template>, storeId: string): seq<Template> {
    Filter(templates, (t: Template) => ActiveIn(storeId, t))
  }

  /** The backend tables a daily run writes. */
  datatype Tables = Tables(checklists: seq<ChecklistRow>, tasks: seq<TaskRow>)

  /** Ids the backend hands out during a run: one checklist id and one id per template task, per template. */
  datatype NewIds = NewIds(checklist: string, tasks: seq<string>)

  predicate IdsFit(templates: seq<Template>, ids: seq<NewIds>) {
    |ids| == |templates| && forall i :: 0 <= i < |ids| ==> |ids[i].tasks| == |templates[i].tasks|
  }

  /** One template of a successful run: skipped if a checklist exists for the date, else a checklist and its tasks. */
  function CreateOne(tables: Tables, t: Template, storeId: string, date: string, ids: NewIds): Tables
    requires |ids.tasks| == |t.tasks|
  {
    if HasChecklist(tables.checklists, t.id, date) then tables
    else
      Tables(tables.checklists + [ChecklistRow(ids.checklist, t.id, storeId, date, ChecklistPending, None, None)],
             tables.tasks + TasksFromTemplate(ids.checklist, t.tasks, ids.tasks))
  }

  /** The tables after a successful run over the given templates, in order. */
  function CreateAll(tables: Tables, templates: seq<Template>, storeId: string, date: string, ids: seq<NewIds>): Tables
    requires IdsFit(templates, ids)
    decreases |templates|
  {
    if templates == [] then tables
    else
      var n := |templates| - 1;
      CreateOne(CreateAll(tables, templates[..n], storeId, date, ids[..n]), templates[n], storeId, date, ids[n])
  }

  /** Prefixes of fitting ids fit the same prefix of templates. */
  lemma IdsFitPrefix(templates: seq<Template>, ids: seq<NewIds>, i: nat)
    requires IdsFit(templates, ids) && i <= |templates|
    ensures IdsFit(templates[..i], ids[..i])
  {
  }

  /** One more template extends a run by one CreateOne. */
  lemma CreateAllStep(tables: Tables, templates: seq<Template>, storeId: string, date: string, ids: seq<NewIds>, i: nat)
    requires IdsFit(templates, ids) && i < |templates|
    ensures IdsFit(templates[..i], ids[..i]) && IdsFit(templates[..i + 1], ids[..i + 1])
    ensures CreateAll(tables, templates[..i + 1], storeId, date, ids[..i + 1])
            == CreateOne(CreateAll(tables, templates[..i], storeId, date, ids[..i]), templates[i], storeId, date, ids[i])
  {
    IdsFitPrefix(templates, ids, i);
    IdsFitPrefix(templates, ids, i + 1);
    assert templates[..i + 1][..i] == templates[..i];
    assert ids[..i + 1][..i] == ids[..i];
  }

  /** After a successful run every template has a checklist for the date, and the tables only grew. */
  lemma {:induction false} CreateAllCovers(tables: Tables, templates: seq<Template>, storeId: string, date: string, ids: seq<NewIds>)
    requires IdsFit(templates, ids)
    ensures var r := CreateAll(tables, templates, storeId, date, ids);
      && tables.checklists <= r.checklists && tables.tasks <= r.tasks
      && forall i :: 0 <= i < |templates| ==> HasChecklist(r.checklists, templates[i].id, date)
    decreases |templates|
  {
    if templates != [] {
      var n := |templates| - 1;
      var before := CreateAll(tables, templates[..n], storeId, date, ids[..n]);
      CreateAllCovers(tables, templates[..n], storeId, date, ids[..n]);
      var r := CreateAll(tables, templates, storeId, date, ids);
      assert before.checklists <= r.checklists;
      forall i | 0 <= i < |templates| ensures HasChecklist(r.checklists, templates[i].id, date) {
        if i < n {
          assert templates[..n][i] == templates[i];
          var j :| 0 <= j < |before.checklists| && before.checklists[j].templateId == templates[i].id
                   && before.checklists[j].date == date;
          assert r.checklists[j] == before.checklists[j];
        } else if !HasChecklist(before.checklists, templates[n].id, date) {
          assert r.checklists[|before.checklists|].templateId == templates[n].id;
        }
      }
    }
  }

  /** A template that already has a checklist for the date gets neither a checklist nor tasks. */
  lemma SkipsExisting(tables: Tables, t: Template, storeId: string, date: string, ids: NewIds)
    requires |ids.tasks| == |t.tasks|
    ensures HasChecklist(tables.checklists, t.id, date) <==> CreateOne(tables, t, storeId, date, ids) == tables
  {
    var r := CreateOne(tables, t, storeId, date, ids);
    if !HasChecklist(tables.checklists, t.id, date) {
      assert |r.checklists| > |tables.checklists|;
    }
  }

  /** A template without one gets exactly one checklist for the date and one task per template task, none if it has none. */
  lemma CreatesOne(tables: Tables, t: Template, storeId: string, date: string, ids: NewIds)
    requires |ids.tasks| == |t.tasks| && !HasChecklist(tables.checklists, t.id, date)
    ensures var r := CreateOne(tables, t, storeId, date, ids);
      && r.checklists == tables.checklists + [ChecklistRow(ids.checklist, t.id, storeId, date, ChecklistPending, None, None)]
      && |r.tasks| == |tables.tasks| + |t.tasks|
      && r.tasks[..|tables.tasks|] == tables.tasks
      && (forall i :: 0 <= i < |t.tasks| ==>
            r.tasks[|tables.tasks| + i].checklistId == ids.checklist
            && Origin(r.tasks[|tables.tasks| + i]) == Some(t.tasks[i]))
      && (t.tasks == [] ==> r.tasks == tables.tasks)
  {
    var r := CreateOne(tables, t, storeId, date, ids);
    assert r.tasks == tables.tasks + TasksFromTemplate(ids.checklist, t.tasks, ids.tasks);
    forall i | 0 <= i < |t.tasks|
      ensures r.tasks[|tables.tasks| + i] == FromTemplate(ids.checklist, t.tasks[i], ids.tasks[i])
    {
    }
  }

  // ---------------------------------------------------------------------
  // Drag and drop
  // ---------------------------------------------------------------------

  datatype Location = Location(droppableId: string, index: int)
  datatype DropResult = DropResult(source: Location, destination: Option<Location>, draggableId: string)

  const PoolId: string := "available-staff"
  const ChecklistPrefix: string := "checklist-"
  const StaffPrefix: string := "staff-"

  /** An assignment a drop asks for: which task row gets which staff id. */
  datatype Assignment = Assignment(taskId: string, staffId: string)

  function FindChecklist(checklists: seq<EnrichedChecklist>, id: string): (r: Option<nat>)
    ensures r.Some? ==> r.value < |checklists| && checklists[r.value].row.id == id
    ensures r.Some? ==> forall j :: 0 <= j < r.value ==> checklists[j].row.id != id
    ensures r.None? ==> forall j :: 0 <= j < |checklists| ==> checklists[j].row.id != id
  {
    if checklists == [] then None
    else if checklists[0].row.id == id then Some(0)
    else match FindChecklist(checklists[1..], id)
      case None => None
      case Some(k) => Some(k + 1)
  }

  /**
   * onDragEnd of the checklist page: only a drag from the staff pool onto
   * a checklist that has a task at the drop index yields an assignment, of
   * the task at that index, to the dragged id with its first "staff-"
   * removed.
   */
  function RouteDrop(checklists: seq<EnrichedChecklist>, drop: DropResult): (r: Option<Assignment>)
    ensures drop.destination.None? ==> r.None?
    ensures drop.destination.Some? && drop.destination.value == drop.source ==> r.None?
    ensures r.Some? ==> drop.source.droppableId == PoolId
    ensures r.Some? ==> StartsWith(drop.destination.value.droppableId, ChecklistPrefix)
    ensures r.Some? ==> r.value.staffId == ReplaceFirst(drop.draggableId, StaffPrefix, "")
  {
    if drop.destination.None? then None
    else
      var dst := drop.destination.value;
      if dst.droppableId == drop.source.droppableId && dst.index == drop.source.index then None
      else if StartsWith(dst.droppableId, ChecklistPrefix) && drop.source.droppableId == PoolId then
        var checklistId := ReplaceFirst(dst.droppableId, ChecklistPrefix, "");
        var staffId := ReplaceFirst(drop.draggableId, StaffPrefix, "");
        match FindChecklist(checklists, checklistId)
        case None => None
        case Some(k) =>
          if 0 <= dst.index < |checklists[k].tasks| then
            Some(Assignment(checklists[k].tasks[dst.index].row.id, staffId))
          else None
      else None
  }

  /** A pool drop onto checklist C at index i assigns exactly C's i-th task, when C is shown and has one. */
  lemma RouteToIndexedTask(checklists: seq<EnrichedChecklist>, checklistId: string, index: int, staffCard: string)
    requires FindChecklist(checklists, checklistId).Some?
    ensures var c := checklists[FindChecklist(checklists, checklistId).value];
      var r := RouteDrop(checklists, DropResult(Location(PoolId, 0), Some(Location(ChecklistPrefix + checklistId, index)), staffCard));
      (0 <= index < |c.tasks| ==> r == Some(Assignment(c.tasks[index].row.id, ReplaceFirst(staffCard, StaffPrefix, ""))))
      && (!(0 <= index < |c.tasks|) ==> r.None?)
  {
    var d := ChecklistPrefix + checklistId;
    assert d[..|ChecklistPrefix|] == ChecklistPrefix;
    ReplacePrefix(d, ChecklistPrefix);
    assert d[|ChecklistPrefix|..] == checklistId;
    assert d[0] == 'c' && PoolId[0] == 'a';
  }

  /** The card id "staff-" + id yields id, whatever the id is. */
  lemma StaffCardId(id: string)
    ensures ReplaceFirst(StaffPrefix + id, StaffPrefix, "") == id
  {
    var s := StaffPrefix + id;
    assert s[..|StaffPrefix|] == StaffPrefix;
    ReplacePrefix(s, StaffPrefix);
    assert s[|StaffPrefix|..] == id;
  }

  // ---------------------------------------------------------------------
  // The page's backend tables and form state
  // ---------------------------------------------------------------------

  function SetAssignee(rows: seq<TaskRow>, taskId: string, staffId: string): (r: seq<TaskRow>)
    ensures |r| == |rows|
    ensures forall i :: 0 <= i < |r| ==>
      r[i] == if rows[i].id == taskId then rows[i].(assignedTo := Some(staffId)) else rows[i]
  {
    seq(|rows|, i requires 0 <= i < |rows| =>
      if rows[i].id == taskId then rows[i].(assignedTo := Some(staffId)) else rows[i])
  }

  function PatchRows(rows: seq<TaskRow>, taskId: string, p: StatusPatch): (r: seq<TaskRow>)
    ensures |r| == |rows|
    ensures forall i :: 0 <= i < |r| ==> r[i] == if rows[i].id == taskId then ApplyPatch(rows[i], p) else rows[i]
  {
    seq(|rows|, i requires 0 <= i < |rows| => if rows[i].id == taskId then ApplyPatch(rows[i], p) else rows[i])
  }

  class ChecklistBoard {
    var templates: seq<Template>
    var checklists: seq<ChecklistRow>
    var tasks: seq<TaskRow>
    var comments: seq<CommentRow>
    /** The task whose detail dialog is open, by id. */
    var selectedTask: Option<string>
    var newComment: string
    var commentType: CommentType

    constructor (templates: seq<Template>)
      ensures this.templates == templates && checklists == [] && tasks == [] && comments == []
      ensures selectedTask.None? && newComment == "" && commentType == Note
    {
      this.templates := templates;
      checklists := [];
      tasks := [];
      comments := [];
      selectedTask := None;
      newComment := "";
      commentType := Note;
    }

    /**
     * createDailyChecklists. Reads the store's active templates and, for
     * each in turn, skips it if a checklist exists for the date, else
     * inserts a checklist and then its tasks (no insert for a template
     * without tasks). A failed read ends the run before any write; a
     * failed insert ends it where it stands, keeping what was written.
     */
    method CreateDailyChecklists(storeId: string, date: string, ids: seq<NewIds>,
                                 readOk: bool, checklistOk: seq<bool>, tasksOk: seq<bool>)
      returns (ok: bool)
      requires IdsFit(ActiveTemplates(templates, storeId), ids)
      requires |checklistOk| == |tasksOk| == |ids|
      modifies this
      ensures templates == old(templates) && comments == old(comments)
      ensures selectedTask == old(selectedTask) && newComment == old(newComment) && commentType == old(commentType)
      ensures ok ==> Tables(checklists, tasks)
                     == CreateAll(Tables(old(checklists), old(tasks)), ActiveTemplates(templates, storeId), storeId, date, ids)
      ensures old(checklists) <= checklists && old(tasks) <= tasks
      ensures !readOk ==> !ok && checklists == old(checklists) && tasks == old(tasks)
      ensures readOk && (forall i :: 0 <= i < |ids| ==> checklistOk[i] && tasksOk[i]) ==> ok
    {
      if !readOk {
        return false;
      }
      var active := ActiveTemplates(templates, storeId);
      ghost var start := Tables(checklists, tasks);
      var i := 0;
      IdsFitPrefix(active, ids, 0);
      while i < |active|
        invariant 0 <= i <= |active|
        invariant IdsFit(active[..i], ids[..i])
        invariant templates == old(templates) && comments == old(comments)
        invariant Tables(checklists, tasks) == CreateAll(start, active[..i], storeId, date, ids[..i])
        invariant old(checklists) <= checklists && old(tasks) <= tasks
        invariant selectedTask == old(selectedTask) && newComment == old(newComment) && commentType == old(commentType)
      {
        CreateAllStep(start, active, storeId, date, ids, i);
        var stepOk := CreateFor(active[i], storeId, date, ids[i], checklistOk[i], tasksOk[i]);
        if !stepOk {
          assert !(checklistOk[i] && tasksOk[i]);
          return false;
        }
        i := i + 1;
      }
      assert active[..i] == active && ids[..i] == ids;
      return true;
    }

    /**
     * One pass of the loop in createDailyChecklists: nothing for a template
     * that already has a checklist for the date, else the checklist insert
     * and then, for a template with tasks, the task insert.
     */
    method CreateFor(t: Template, storeId: string, date: string, ids: NewIds, checklistOk: bool, tasksOk: bool)
      returns (ok: bool)
      requires |ids.tasks| == |t.tasks|
      modifies this
      ensures templates == old(templates) && comments == old(comments)
      ensures selectedTask == old(selectedTask) && newComment == old(newComment) && commentType == old(commentType)
      ensures ok ==> Tables(checklists, tasks) == CreateOne(Tables(old(checklists), old(tasks)), t, storeId, date, ids)
      ensures ok <==> HasChecklist(old(checklists), t.id, date) || (checklistOk && (|t.tasks| == 0 || tasksOk))
      ensures HasChecklist(old(checklists), t.id, date) || !checklistOk ==> checklists == old(checklists) && tasks == old(tasks)
      ensures !HasChecklist(old(checklists), t.id, date) && checklistOk ==>
                checklists == old(checklists) + [ChecklistRow(ids.checklist, t.id, storeId, date, ChecklistPending, None, None)]
      ensures !ok ==> tasks == old(tasks)
      ensures old(checklists) <= checklists && old(tasks) <= tasks
    {
      if HasChecklist(checklists, t.id, date) {
        return true;
      }
      if !checklistOk {
        return false;
      }
      var created := TasksFromTemplate(ids.checklist, t.tasks, ids.tasks);
      checklists := checklists + [ChecklistRow(ids.checklist, t.id, storeId, date, ChecklistPending, None, None)];
      if |t.tasks| > 0 {
        if !tasksOk {
          return false;
        }
        tasks := tasks + created;
      } else {
        assert tasks + created == tasks;
      }
      return true;
    }

    /** assignStaffToTask: on success every task row with that id is assigned to the staff id. */
    method AssignStaffToTask(taskId: string, staffId: string, ok: bool)
      modifies this
      ensures ok ==> tasks == SetAssignee(old(tasks), taskId, staffId)
      ensures !ok ==> tasks == old(tasks)
      ensures templates == old(templates) && checklists == old(checklists) && comments == old(comments)
      ensures selectedTask == old(selectedTask) && newComment == old(newComment) && commentType == old(commentType)
    {
      if ok {
        tasks := SetAssignee(tasks, taskId, staffId);
      }
    }

    /** onDragEnd: the routed assignment, if any, is written; every other drop changes nothing. */
    method OnDragEnd(shown: seq<EnrichedChecklist>, drop: DropResult, ok: bool)
      modifies this
      ensures RouteDrop(shown, drop).None? || !ok ==> tasks == old(tasks)
      ensures RouteDrop(shown, drop).Some? && ok ==>
        tasks == SetAssignee(old(tasks), RouteDrop(shown, drop).value.taskId, RouteDrop(shown, drop).value.staffId)
      ensures templates == old(templates) && checklists == old(checklists) && comments == old(comments)
      ensures selectedTask == old(selectedTask) && newComment == old(newComment) && commentType == old(commentType)
    {
      var route := RouteDrop(shown, drop);
      if route.Some? {
        AssignStaffToTask(route.value.taskId, route.value.staffId, ok);
      }
    }

    /** updateTaskStatus: on success the status patch is applied to every task row with that id. */
    method UpdateTaskStatus(taskId: string, status: TaskStatus, rating: Option<Rating>,
                            actor: Option<Profile>, now: int, ok: bool)
      modifies this
      ensures ok ==> tasks == PatchRows(old(tasks), taskId, StatusPatch(status, ActorId(actor),
                        if status == InProgress then Some(now) else None,
                        if status == Completed then Some(now) else None,
                        if status == Completed then rating else None))
      ensures !ok ==> tasks == old(tasks)
      ensures templates == old(templates) && checklists == old(checklists) && comments == old(comments)
      ensures selectedTask == old(selectedTask) && newComment == old(newComment) && commentType == old(commentType)
    {
      var p := BuildStatusPatch(status, actor, rating, now);
      if ok {
        tasks := PatchRows(tasks, taskId, p);
      }
    }

    /**
     * addComment: with a task selected, a non-blank comment and a profile,
     * the trimmed text is stored under the selected task and the form
     * resets to an empty note; otherwise, or when the insert fails,
     * nothing changes.
     */
    method AddComment(actor: Option<Profile>, id: string, now: int, ok: bool)
      modifies this
      ensures selectedTask.None? || Trim(old(newComment)) == "" || actor.None? || !ok ==>
                comments == old(comments) && newComment == old(newComment) && commentType == old(commentType)
      ensures selectedTask.Some? && Trim(old(newComment)) != "" && actor.Some? && ok ==>
                comments == old(comments) + [CommentRow(id, selectedTask.value, actor.value.id, Trim(old(newComment)),
                                                        old(commentType), now)]
                && newComment == "" && commentType == Note
      ensures templates == old(templates) && checklists == old(checklists) && tasks == old(tasks)
      ensures selectedTask == old(selectedTask)
    {
      if selectedTask.None? || Trim(newComment) == "" || actor.None? {
        return;
      }
      if ok {
        comments := comments + [CommentRow(id, selectedTask.value, actor.value.id, Trim(newComment), commentType, now)];
        newComment := "";
        commentType := Note;
      }
    }
  }

  /** A stored comment is never blank: it has a character that is not whitespace. */
  lemma StoredCommentNotBlank(text: string)
    requires Trim(text) != ""
    ensures exists i :: 0 <= i < |text| && !IsJsSpace(text[i])
  {
    TrimEmptyIff(text);
  }
}
