# Q-Daddy's crew hub: a verified model of the page logic

The crew hub is a React front end over a Supabase back end. Restaurant
staff use it to run a barbecue store. This project models the logic of its
pages in Dafny and proves what that logic promises:

- **Setup sheets** (`SetupSheets`): dragging a staff card from the shift's
  pool onto a position, and back again. The team-notes editor.
- **Daily checklists** (`Checklists`):
  - creating the day's checklists from the store's active templates;
  - joining tasks, assignees and comments into the checklist view;
  - assigning staff by drag and drop;
  - status updates with their timestamps, completer and rating;
  - comments;
  - the progress figure.
- **Shifts** (`Shifts`): normalising fetched shifts, creating a shift,
  assigning staff by drag and drop, changing an assignment's role, and
  removing an assignment.
- **Training** (`TrainingInstanceCard`, `TrainingChecklist`, `TrainingPage`):
  - the instance lifecycle: assigned → in progress → completed → approved;
  - the card's status label, action button, days-left count and expiry
    warning;
  - the checklist screen's task statuses, per-task timers and progress
    percentage;
  - the approval controls;
  - the merge of template tasks with instance tasks;
  - the team-progress summary a leader sees, with milestones;
  - the template and instance filters.
- **Onboarding** (`Onboarding`): the three-step wizard (store setup →
  employee import → completed), its stored step marker, and the
  invitations it writes.
- **Account management** (`AccountManagement`):
  - who may manage accounts and which roles they may grant;
  - activating, deactivating and re-roling members;
  - the audit record each change writes;
  - the list of the newest 50 audit records.
- **Team page** (`TeamPage`): the crew list and its search, role and status
  filter, the on-shift count, the Q-Cash total, avatar initials and status
  texts.

`Util` holds the shared pieces:

- Option;
- JavaScript string behaviour: `startsWith`, `includes`, `replace` of the
  first occurrence, ASCII `toLowerCase` and `trim`;
- order-keeping filter, counting and summing;
- a stable insertion sort that models the back end's `order(...)`;
- `Math.round` of a percentage and `Math.ceil` of a quotient, written over
  integers.

How state is modelled:

- A page whose handlers change state step by step is a `class`. Its fields
  hold the back-end tables it reads and writes, plus the page's own state.
- Every asynchronous call that can fail gets a `bool` parameter that says
  whether it succeeded. Every identifier or timestamp the back end or the
  clock produces is a parameter.
- Each handler's `ensures` says which fields it leaves alone and what the
  fields it writes become, in terms of the old state. Where a handler
  reloads the page's lists, a predicate of the class (`Reloaded`,
  `ChecklistOpened`) states the reloaded lists. The one exception is
  createDailyChecklists stopping part-way (see "## Left out"). The lemmas
  prove what those functions mean: conservation of staff across a drag, a
  round trip, an ordering, or the two sides of an if-and-only-if.

The model follows the code as written, including these behaviours:

- **Setup sheets:**
  - A drop onto a position that is already occupied overwrites the
    occupant, and the occupant is lost from the sheet.
  - A drop onto a position id that does not exist still removes the member
    from the pool. The member disappears.
- **Shifts:** assigning the same person to the same shift twice inserts two
  rows.
- **Training checklist:**
  - The Request Approval button is offered only when the instance status is
    already `completed`. Only requesting approval sets that status.
  - After every saved status change, the timer table is rebuilt from the
    stored tasks. Minutes a paused task had not yet saved are dropped.
  - With 200 or more tasks and one still open, the progress bar rounds to
    100.
- **Training page:**
  - The instance filter ignores the role filter.
  - The approve handler approves the selected instance. That instance is
    always one of the actor's own, so the recorded approver is the trainee.
  - An operator gets the "Next Level Training" milestone.
- **Account management:**
  - The audit list is filtered by table (`profiles`), not by store.
  - A manager gets the row controls on an operator's row.
- **Team page:** an unknown status spelled like a label, for example
  "On Shift", reads the same as the status that label names.
- **Onboarding:**
  - A stored step outside the three known steps leaves the wizard on a
    blank screen.
  - A failure to write the step marker is ignored.

## Model

| member | source | states |
|---|---|---|
| SetupSheets.FirstShift | src/components/SetupSheetsPage.tsx:268-269 | the index found is the first shift with the selected id; none exactly when no shift has that id |
| SetupSheets.OnDragEnd | src/components/SetupSheetsPage.tsx:262-322 | no sheet, no destination, no selected shift or a drop that is neither pool→position nor position→pool leaves the sheet unchanged; otherwise only the shifts with the selected id change, the number of shifts and every other field are kept |
| SetupSheets.UpdateTeamNotes | src/components/SetupSheetsPage.tsx:324-337 | with a sheet the notes become the edited text and editing ends; without one nothing changes |
| SetupSheets.Occupy | src/components/SetupSheetsPage.tsx:281-283 | every position with the target id gets the staff member; every other position is unchanged |
| SetupSheets.Vacate | src/components/SetupSheetsPage.tsx:306-308 | every position with the target id is emptied; every other position is unchanged |
| SetupSheets.PrefixedId | src/components/SetupSheetsPage.tsx:271-273 | a droppable id built as `position-` + id is recognised as a position and yields the id back |
| SetupSheets.AssignMoves | src/components/SetupSheetsPage.tsx:271-290 | assigning removes every pool entry with the staff id and fills the positions with that id with the first such staff member |
| SetupSheets.UnassignMoves | src/components/SetupSheetsPage.tsx:296-314 | unassigning empties the position and appends its occupant to the end of the pool; an empty position changes nothing |
| SetupSheets.AssignDrop | src/components/SetupSheetsPage.tsx:271-292 | the pool→position drop; `AssignMoves` states its effect |
| SetupSheets.UnassignDrop | src/components/SetupSheetsPage.tsx:296-313 | the position→pool drop; `UnassignMoves` states its effect |
| SetupSheets.OccupyOne | src/components/SetupSheetsPage.tsx:281-283 | on a unique position id, the occupants after occupying, plus the old occupant, equal the old occupants plus the newcomer |
| SetupSheets.VacateOne | src/components/SetupSheetsPage.tsx:306-308 | on a unique position id, the occupants after vacating, plus the removed occupant, equal the old occupants |
| SetupSheets.RemoveOne | src/components/SetupSheetsPage.tsx:284 | on a unique staff id, filtering the pool removes exactly that one member (as a multiset) |
| SetupSheets.AssignConserves | src/components/SetupSheetsPage.tsx:271-288 | with unique ids, an assign keeps the multiset of pool + occupants except for the occupant it overwrites, which is lost |
| SetupSheets.UnassignConserves | src/components/SetupSheetsPage.tsx:296-313 | with a unique position id, an unassign keeps the multiset of pool + occupants |
| SetupSheets.SameShiftIds | src/components/SetupSheetsPage.tsx:268-269 | the shift lookup depends only on the shift ids, so it finds the same shift after a drop |
| SetupSheets.SamePositionIds | src/components/SetupSheetsPage.tsx:298-299 | the position lookup depends only on the position ids |
| SetupSheets.AssignThenUnassign | src/components/SetupSheetsPage.tsx:271-313 | assigning a member to an empty position and dragging them back restores the positions; the member ends at the end of the pool, and with a unique id the pool is a permutation of the original |
| SetupSheets.AssignToMissingPosition | src/components/SetupSheetsPage.tsx:271-288 | a drop onto a position id that does not exist removes the member from the pool, leaves the positions as they were, and the member is in neither |
| Checklists.ActorId | src/components/ChecklistsPage.tsx:398 | the completer id is present exactly when there is a profile with a non-empty id, and is that id |
| Checklists.BuildStatusPatch | src/components/ChecklistsPage.tsx:394-408 | the patch sets started_at iff in progress, completed_at iff completed (both to now), the rating iff completed with a rating given, and always the status and completer |
| Checklists.ApplyPatch | src/components/ChecklistsPage.tsx:410-413 | the row takes the patch's status and completer and each timestamp or rating the patch carries; every other column is kept |
| Checklists.CompletedCountRange | src/components/ChecklistsPage.tsx:467-471 | the completed count is at most the task count, zero iff no task is completed, full iff every task is |
| Checklists.Share | src/components/ChecklistsPage.tsx:470 | the share times the total is 100 times the completed count |
| Checklists.ChecklistProgress | src/components/ChecklistsPage.tsx:467-471 | no tasks gives 0; otherwise progress × task count = 100 × completed count |
| Checklists.ProgressBounds | src/components/ChecklistsPage.tsx:467-471 | progress lies in 0..100, is 100 iff every task is completed, and is 0 iff none is |
| Checklists.SkippedNotCompleted | src/components/ChecklistsPage.tsx:468 | a skipped task keeps the progress below 100 |
| Checklists.FindTemplate | src/components/ChecklistsPage.tsx:207 | the first template with the checklist's template id, or none when no template has it |
| Checklists.FindProfile | src/components/ChecklistsPage.tsx:211-212 | the assignee profile is found only for a present id and is a profile with that id; none when no profile has it |
| Checklists.EnrichAll | src/components/ChecklistsPage.tsx:210-221 | each task row is enriched in place, one for one |
| Checklists.Rows | src/components/ChecklistsPage.tsx:210-221 | projecting the enriched tasks gives back their rows one for one |
| Checklists.Enrich | src/components/ChecklistsPage.tsx:206-228 | every checklist is enriched, one for one, in order |
| Checklists.InsertCommutes | src/components/ChecklistsPage.tsx:221 | enriching a row and inserting it by order index gives the list that inserting the row and then enriching gives |
| Checklists.SortCommutes | src/components/ChecklistsPage.tsx:221 | sorting the enriched tasks by order index equals enriching the rows sorted by order index |
| Checklists.EnrichJoin | src/components/ChecklistsPage.tsx:206-228 | an enriched checklist keeps its row; when some template has its id it carries the name, description and type of the first such template, otherwise the unknown-template placeholder; its tasks are exactly its own rows as a multiset, sorted by order index, each enriched |
| Checklists.EnrichTasks | src/components/ChecklistsPage.tsx:208-221 | the sorted enriched tasks project back to the sorted rows and are a permutation of them |
| Checklists.OwnTasksBelong | src/components/ChecklistsPage.tsx:208 | every task kept for a checklist carries that checklist's id |
| Checklists.CopiesTemplateTask | src/components/ChecklistsPage.tsx:313-321 | a created task row copies its template task, belongs to the new checklist and starts pending |
| Checklists.TasksFromTemplate | src/components/ChecklistsPage.tsx:313-321 | one task row per template task, in template order |
| Checklists.CreateAllCovers | src/components/ChecklistsPage.tsx:288-329 | after creation every active template has a checklist for the date, and existing checklists and tasks are kept as a prefix |
| Checklists.SkipsExisting | src/components/ChecklistsPage.tsx:289-297 | a template is skipped iff a checklist for it and the date already exists |
| Checklists.CreatesOne | src/components/ChecklistsPage.tsx:299-329 | a missing checklist is appended as open for the store and date, followed by one pending task per template task |
| Checklists.CreateOne | src/components/ChecklistsPage.tsx:299-329 | one template's checklist and tasks appended; its properties are stated by `CreatesOne` |
| Checklists.CreateAll | src/components/ChecklistsPage.tsx:288-329 | `CreateOne` for each active template not already done; its properties are stated by `CreateAllCovers` |
| Checklists.HasChecklist | src/components/ChecklistsPage.tsx:289-297 | the existence check; `SkipsExisting` states that a template is skipped exactly when it holds |
| Checklists.EnrichChecklist | src/components/ChecklistsPage.tsx:206-228 | one checklist joined to its template and enriched tasks; `EnrichJoin` states the join |
| Checklists.ChecklistBoard.CreateDailyChecklists | src/components/ChecklistsPage.tsx:274-346 | the run succeeds when the template read and every checklist and task write succeed, and the tables then equal `CreateAll` over the active templates; tables only grow; a failed template read changes nothing |
| Checklists.ChecklistBoard.CreateFor | src/components/ChecklistsPage.tsx:288-329 | one template's step succeeds iff the checklist already exists, or its insert succeeds and it has no tasks or their insert succeeds; an existing checklist or a failed insert writes nothing; otherwise the open checklist row is appended, and the task rows follow on success; a successful step gives `CreateOne` |
| Checklists.FindChecklist | src/components/ChecklistsPage.tsx:361 | the first shown checklist with the id, or none when no checklist has it |
| Checklists.RouteDrop | src/components/ChecklistsPage.tsx:348-367 | no destination or the same location routes nothing; a routed drop comes from the staff pool onto a checklist and carries the staff id without its `staff-` prefix |
| Checklists.RouteToIndexedTask | src/components/ChecklistsPage.tsx:358-365 | a drop at index i of a shown checklist assigns its i-th task; an index outside the tasks routes nothing |
| Checklists.StaffCardId | src/components/ChecklistsPage.tsx:360 | a card id built as `staff-` + id yields the id back |
| Checklists.SetAssignee | src/components/ChecklistsPage.tsx:371-375 | rows with the task id get the staff member as assignee; every other row is unchanged |
| Checklists.PatchRows | src/components/ChecklistsPage.tsx:410-413 | rows with the task id get the patch applied; every other row is unchanged |
| Checklists.ChecklistBoard.AssignStaffToTask | src/components/ChecklistsPage.tsx:369-392 | on success the task rows get the assignee; on failure nothing changes; no other table changes |
| Checklists.ChecklistBoard.OnDragEnd | src/components/ChecklistsPage.tsx:348-367 | a routed drop assigns the routed staff member to the routed task; anything else changes nothing |
| Checklists.ChecklistBoard.UpdateTaskStatus | src/components/ChecklistsPage.tsx:394-431 | on success the task rows get the built status patch; on failure nothing changes |
| Checklists.ChecklistBoard.AddComment | src/components/ChecklistsPage.tsx:433-465 | a comment is stored only with a selected task, a non-blank trimmed text, a profile and a successful insert, and then the text box is cleared; otherwise nothing changes |
| Checklists.StoredCommentNotBlank | src/components/ChecklistsPage.tsx:434 | a stored comment contains a character that is not JavaScript whitespace |
| Shifts.NormalizeAssignments | src/components/ShiftsPage.tsx:128-131 | one assignment per fetched row, each normalised |
| Shifts.NormalizeShifts | src/components/ShiftsPage.tsx:127-133 | each fetched shift keeps its row; missing assignments become an empty list, present ones are normalised |
| Shifts.NormalizeKeepsFields | src/components/ShiftsPage.tsx:128-131 | normalising loses nothing: the row is recovered from it, and absent secondary roles become an empty list |
| Shifts.RouteDrop | src/components/ShiftsPage.tsx:206-223 | no destination or the same location routes nothing; a routed drop carries the staff id without its `staff-` prefix |
| Shifts.RouteToShift | src/components/ShiftsPage.tsx:217-221 | a staff card dropped on `shift-` + id is routed to that shift with that staff id |
| Shifts.SetRole | src/components/ShiftsPage.tsx:255-260 | the assignment with the id gets the new primary role; every other row is unchanged |
| Shifts.RepeatedInsertsAccumulate | src/components/ShiftsPage.tsx:225-235 | assigning the same member to the same shift twice leaves two more placements, with no deduplication |
| Shifts.SetRoleIdempotent | src/components/ShiftsPage.tsx:255-260 | setting the same role twice is the same as setting it once, and every other column is kept |
| Shifts.RemoveSplits | src/components/ShiftsPage.tsx:280-285 | the kept rows plus the removed rows number the original rows |
| Shifts.RemoveExactly | src/components/ShiftsPage.tsx:280-285 | after removal no row has the id, every other row is kept in order, and exactly the matching rows are gone |
| Shifts.NewAssignment | src/components/ShiftsPage.tsx:225-235 | the inserted front-of-house row; `RepeatedInsertsAccumulate` states that repeated inserts accumulate |
| Shifts.Remove | src/components/ShiftsPage.tsx:280-285 | the rows kept by a removal; `RemoveExactly` states which |
| Shifts.ShiftBoard.CreateShift | src/components/ShiftsPage.tsx:163-204 | a shift is created only with a store, a shift type and a successful insert, and the form is then reset and closed; otherwise nothing changes |
| Shifts.ShiftBoard.AssignStaffToShift | src/components/ShiftsPage.tsx:225-253 | on success one front-of-house assignment row is appended; on failure nothing changes |
| Shifts.ShiftBoard.OnDragEnd | src/components/ShiftsPage.tsx:206-223 | a routed drop appends the routed assignment; anything else changes nothing |
| Shifts.ShiftBoard.UpdateAssignmentRole | src/components/ShiftsPage.tsx:255-278 | on success the assignment gets the new role; on failure nothing changes |
| Shifts.ShiftBoard.RemoveAssignment | src/components/ShiftsPage.tsx:280-303 | on success the assignment rows lose exactly the id; on failure nothing changes |
| TrainingInstanceCard.LabelsDistinct | src/components/training/TrainingInstanceCard.tsx:47-73 | each status has its own label, and the label names the status back |
| TrainingInstanceCard.StatusLabel | src/components/training/TrainingInstanceCard.tsx:47-73 | the label of each status; `LabelsDistinct` states that the labels are distinct |
| TrainingInstanceCard.IsExpired | src/components/training/TrainingInstanceCard.tsx:91 | the expiry test; `WarningWindow` states how it gates the warning |
| TrainingInstanceCard.ActionFor | src/components/training/TrainingInstanceCard.tsx:94-142 | the button is enabled iff the status is not expired; it reviews iff completed or approved, and continues iff in progress |
| TrainingInstanceCard.DaysLeft | src/components/training/TrainingInstanceCard.tsx:92 | the count is the whole days left rounded up: (r-1) days < time left <= r days |
| TrainingInstanceCard.WarningWindow | src/components/training/TrainingInstanceCard.tsx:193-198 | the expiry warning shows iff the instance has not expired, has at most 7 days left and is not approved; the days shown are then 0..7 |
| TrainingInstanceCard.ActionIgnoresExpiry | src/components/training/TrainingInstanceCard.tsx:91-142 | the action button does not depend on the clock, so an expired in-progress instance still offers Continue |
| TrainingInstanceCard.ApproverShown | src/components/training/TrainingInstanceCard.tsx:201-206 | the approver line shows iff the instance is approved with an approver, and never together with the warning |
| TrainingChecklist.CompletedCount | src/components/training/TrainingChecklist.tsx:82 | at most the number of tasks |
| TrainingChecklist.ProgressPercentage | src/components/training/TrainingChecklist.tsx:82-84 | 0 for no tasks; otherwise 100 × completed / total rounded to the nearest integer, halves up, within 0..100 |
| TrainingChecklist.AllCompletedIff | src/components/training/TrainingChecklist.tsx:85 | all tasks are completed iff every task has status completed |
| TrainingChecklist.AllTasksCompleted | src/components/training/TrainingChecklist.tsx:85 | the all-completed flag; `AllCompletedIff` states its meaning |
| TrainingChecklist.ProgressEnds | src/components/training/TrainingChecklist.tsx:82-85 | all tasks completed gives 100, none completed gives 0 |
| TrainingChecklist.RoundsUpToFull | src/components/training/TrainingChecklist.tsx:84-85 | with 200 or more tasks and one open, the percentage reads 100 while not all tasks are completed |
| TrainingChecklist.FindTask | src/components/training/TrainingChecklist.tsx:101-102 | the task found has the id; none when no task has it |
| TrainingChecklist.MarkTasks | src/components/training/TrainingChecklist.tsx:126-135 | tasks with the id get the new status, timestamps and minutes; every other task is unchanged |
| TrainingChecklist.MarkRows | src/components/training/TrainingChecklist.tsx:111-121 | every row that is not the instance's row for the task is unchanged; that row keeps its ids and score and takes the status, the minutes, and a completion time (now) iff the status is completed |
| TrainingChecklist.SpentFrom | src/components/training/TrainingChecklist.tsx:87-97 | the timer table has exactly the task ids as keys |
| TrainingChecklist.SpentFromUnique | src/components/training/TrainingChecklist.tsx:91-94 | for a unique task id the table holds that task's stored minutes |
| TrainingChecklist.FinalMinutes | src/components/training/TrainingChecklist.tsx:105-109 | completing a running task adds its whole elapsed minutes to the stored ones; otherwise the stored minutes (0 if none) |
| TrainingChecklist.StoredMinutesKept | src/components/training/TrainingChecklist.tsx:105-109 | against the table rebuilt from the tasks, a completion adds the elapsed minutes and anything else keeps the task's minutes |
| TrainingChecklist.StartThenComplete | src/components/training/TrainingChecklist.tsx:162-166 | starting at t0 and completing at t1 stores the old minutes plus the whole minutes from t0 to t1 |
| TrainingChecklist.ResyncDropsUnsaved | src/components/training/TrainingChecklist.tsx:87-97 | after another task's update, a task's timer entry is reset to its stored minutes |
| TrainingChecklist.ApprovalControls | src/components/training/TrainingChecklist.tsx:251-265 | either button shows only when all tasks and the instance are completed, and never both |
| TrainingChecklist.ControlsAsWired | src/components/TrainingPage.tsx:487-489 | as the page wires it, a leader gets Approve and anyone else gets Request Approval, once everything is completed |
| TrainingChecklist.RequestNeedsCompletedStatus | src/components/training/TrainingChecklist.tsx:251 | Request Approval is never offered unless the instance status is already completed |
| TrainingChecklist.Session.constructor | src/components/training/TrainingChecklist.tsx:75-97 | starts with the given tasks, no active task, no timers, in sync |
| TrainingChecklist.Session.UpdateTaskStatus | src/components/training/TrainingChecklist.tsx:99-160 | on success the tasks and stored rows are marked alike and the timer table is rebuilt; completing clears the active task and its start time; otherwise nothing changes (completeTask, lines 181-183, is this call with status completed) |
| TrainingChecklist.Session.StartTask | src/components/training/TrainingChecklist.tsx:162-166 | the task becomes active with its start time recorded; for a known task and a successful write the task and its stored row are set in progress with the task's current minutes and the counters are rebuilt; otherwise tasks, rows and counters are unchanged |
| TrainingChecklist.Session.PauseTask | src/components/training/TrainingChecklist.tsx:168-179 | no task stays active; a running task adds its whole elapsed minutes to the unsaved timer and loses its start time |
| TrainingPage.NextMilestone | src/components/TrainingPage.tsx:199-208 | each of the five named roles gets its milestone |
| TrainingPage.MilestoneFallback | src/components/TrainingPage.tsx:199-208 | the fallback milestone is given iff the role is none of the five, the operator included |
| TrainingPage.FilteredTemplates | src/components/TrainingPage.tsx:454-461 | the kept templates are an order-keeping subsequence, all of them match, and every matching template is kept |
| TrainingPage.EmptyFilterKeepsAll | src/components/TrainingPage.tsx:454-461 | role "all" and an empty search keep every template |
| TrainingPage.TeamMemberTemplatesAlwaysShown | src/components/TrainingPage.tsx:455-457 | a team_member template whose name matches the search is shown under any role |
| TrainingPage.FilteredInstances | src/components/TrainingPage.tsx:463-467 | the kept instances are an order-keeping subsequence, all of them match the search, and every matching one is kept |
| TrainingPage.InstancesIgnoreRole | src/components/TrainingPage.tsx:463-467 | an instance is shown iff its template would match under role "all"; an empty search shows every instance |
| TrainingPage.ApplyPatch | src/components/TrainingPage.tsx:216-386 | a lifecycle write keeps the row's identity, owner and assignment columns; start sets in progress and its start time and keeps the completion and approval columns; complete sets completed and its time and keeps the start and approval columns; approve sets approved, its time, the approver and the certification flag and keeps the start and completion times |
| TrainingPage.PatchRows | src/components/TrainingPage.tsx:216-222 | the row with the id is patched; every other row is unchanged |
| TrainingPage.PatchesIgnoreStatus | src/components/TrainingPage.tsx:210-386 | start, complete and approve each set their status and timestamp (approve also the approver and certification) whatever the previous status |
| TrainingPage.Lifecycle | src/components/TrainingPage.tsx:210-406 | start, complete, approve in turn give an approved row carrying all three timestamps, the approver and the certification |
| TrainingPage.RequestAfterApproval | src/components/TrainingPage.tsx:342-372 | requesting approval after approval moves the row back to completed while the certification stays |
| TrainingPage.FindInstanceTask | src/components/TrainingPage.tsx:308 | the instance task found is one for the template task; none when there is no such task |
| TrainingPage.Merge | src/components/TrainingPage.tsx:285-324 | one checklist task per template task, with its id, title and order; status and minutes come from the matching instance task, or pending and 0 without one |
| TrainingPage.MergeKeepsOrder | src/components/TrainingPage.tsx:245-249 | template tasks in order-index order give a merged checklist in the same order |
| TrainingPage.TemplateTasksOf | src/components/TrainingPage.tsx:245-249 | the template's tasks sorted by order index, a permutation of its rows |
| TrainingPage.NewTaskRows | src/components/TrainingPage.tsx:262-268 | one new instance task per template task, for the instance and that template task |
| TrainingPage.FreshChecklistPending | src/components/TrainingPage.tsx:262-304 | opening an instance with no tasks yet creates them and shows every task pending with 0 minutes |
| TrainingPage.Certifications | src/components/TrainingPage.tsx:167-170 | at most one certification per instance |
| TrainingPage.CertificationsMatch | src/components/TrainingPage.tsx:167-170 | the listed certifications are exactly the non-empty template names of the instances with an earned certification, whatever their status |
| TrainingPage.ApprovedCount | src/components/TrainingPage.tsx:165 | at most the number of instances |
| TrainingPage.ApprovedCountFull | src/components/TrainingPage.tsx:165-166 | the count is full iff every instance is approved, and 0 iff none is |
| TrainingPage.ProgressOfBounds | src/components/TrainingPage.tsx:164-181 | a member's summary counts all modules, the approved ones, and a rounded percentage in 0..100 that is 100 when all are approved |
| TrainingPage.ProgressOf | src/components/TrainingPage.tsx:164-181 | one member's summary; `ProgressOfBounds` states its bounds |
| TrainingPage.IsLeader | src/components/TrainingPage.tsx:80 | a leader is a signed-in shift leader, manager or operator; `ControlsAsWired` states which approval button that selects |
| TrainingPage.FindTemplate | src/components/TrainingPage.tsx:151-157 | the template joined to an instance has the instance's template id |
| TrainingPage.MemberInstances | src/components/TrainingPage.tsx:151-157 | one entry per instance of the member, in table order, with its status and certification flag; the template name is absent iff no template has the instance's template id, and otherwise is the name of a template with that id |
| TrainingPage.TeamProgress | src/components/TrainingPage.tsx:148-182 | at most one summary per team member |
| TrainingPage.TeamProgressMembers | src/components/TrainingPage.tsx:148-182 | the team view lists exactly the members whose instance query succeeded, in member order, each entry being that member's summary over their own instances |
| TrainingPage.OwnInstances | src/components/TrainingPage.tsx:95-108 | every loaded instance is a stored row of the actor joined to a template with its template id; every stored row of the actor whose template exists is loaded with the first such template |
| TrainingPage.OwnListSorted | src/components/TrainingPage.tsx:95-117 | sorting newest first keeps every entry the actor's own |
| TrainingPage.Board.ListOwn | src/components/TrainingPage.tsx:94-117 | the actor's list becomes sorted newest first and a permutation of the actor's joined instances; nothing else changes |
| TrainingPage.FindLoaded | src/components/TrainingPage.tsx:211 | the instance found is in the loaded list with the id; none when no instance has it |
| TrainingPage.Board.constructor | src/components/TrainingPage.tsx:66-80 | starts with the given tables, nothing loaded, nothing open |
| TrainingPage.Board.BuildTeamProgress | src/components/TrainingPage.tsx:148-185 | the loop builds exactly the team-progress summary |
| TrainingPage.Board.LoadTrainingData | src/components/TrainingPage.tsx:88-197 | only the three lists change; with a store and the instance read, the list is a newest-first permutation of the actor's joined instances; after the template read too, the store's active templates; a leader with the team read gets the team summary of the other store members; any list whose read is not reached keeps what was shown |
| TrainingPage.Board.LoadTrainingChecklist | src/components/TrainingPage.tsx:239-340 | opening a loaded instance creates its task rows when it has none, then shows the merged checklist; a failed step keeps the screen closed |
| TrainingPage.Board.OpenChecklist | src/components/TrainingPage.tsx:261-330 | with no task rows, pending rows are inserted for every template task; the checklist opens with the template tasks merged with the instance's rows unless a write or reload fails; the listed data is unchanged |
| TrainingPage.Board.StartTraining | src/components/TrainingPage.tsx:210-237 | a listed instance with a successful write is set in progress and its checklist opens as loadTrainingChecklist opens it from the list as it was; otherwise nothing changes; the lists and other tables never change |
| TrainingPage.Board.RequestApproval | src/components/TrainingPage.tsx:342-372 | with an instance selected and a successful write, it is set completed, the checklist closes and the lists are reloaded; otherwise nothing changes; task rows and the selection are kept |
| TrainingPage.Board.ApproveTraining | src/components/TrainingPage.tsx:374-406 | with an instance selected, an actor and a successful write, the instance is approved by the actor, who is also its trainee, the checklist closes and the lists are reloaded; otherwise nothing changes |
| TrainingPage.Board.AssignTemplate | src/components/TrainingPage.tsx:408-437 | on success one assigned instance row is appended and the lists are reloaded; on failure nothing changes; the checklist screen is kept |
| Onboarding.StepIndex | src/components/onboarding/OnboardingWizard.tsx:202-204 | the index of the step among the three, or -1 exactly when it is none of them |
| Onboarding.StepCounter | src/components/onboarding/OnboardingWizard.tsx:250 | "Step i+1 of 3" for the step's index i |
| Onboarding.ScreenFor | src/components/onboarding/OnboardingWizard.tsx:208-335 | the done screen iff the step is completed; a blank screen iff the step is unknown |
| Onboarding.UnknownStepStalls | src/components/onboarding/OnboardingWizard.tsx:202-258 | an unknown stored step shows a blank screen as "Step 0 of 3" |
| Onboarding.BlankNameBlocks | src/components/onboarding/OnboardingWizard.tsx:313 | store setup can be submitted iff the name has a character that is not JavaScript whitespace |
| Onboarding.CanSubmitStoreSetup | src/components/onboarding/OnboardingWizard.tsx:313 | the submit guard; `BlankNameBlocks` states its meaning |
| Onboarding.Invitations | src/components/onboarding/OnboardingWizard.tsx:162-170 | one invitation per selected employee, for the store, carrying that employee |
| Onboarding.InvitationsRoundTrip | src/components/onboarding/OnboardingWizard.tsx:162-170 | the employees are recovered from their invitations |
| Onboarding.OfferedNeverBack | src/components/onboarding/OnboardingWizard.tsx:119-200 | every handler a screen offers moves the step forward, one step except for finishing |
| Onboarding.TwoStepsToDone | src/components/onboarding/OnboardingWizard.tsx:119-195 | store setup then employee import reaches completed |
| Onboarding.FindMarker | src/components/onboarding/OnboardingWizard.tsx:81-85 | the first marker row for the store, or none when there is none |
| Onboarding.Upsert | src/components/onboarding/OnboardingWizard.tsx:105-111 | the store's first marker row becomes (store, step, now), or one such row is appended when the store has none; every other row is kept |
| Onboarding.Wizard.constructor | src/components/onboarding/OnboardingWizard.tsx:59-71 | starts at store setup with an empty form and the test employees selected |
| Onboarding.Wizard.LoadOnboardingStatus | src/components/onboarding/OnboardingWizard.tsx:77-99 | a stored marker sets the current step; otherwise the step stays |
| Onboarding.Wizard.UpdateOnboardingStep | src/components/onboarding/OnboardingWizard.tsx:101-117 | with a store and a successful write the marker is upserted; nothing else changes |
| Onboarding.Wizard.HandleStoreSetup | src/components/onboarding/OnboardingWizard.tsx:119-154 | a successful store update writes the form and advances to employee import; the marker write may fail silently |
| Onboarding.Wizard.HandleEmployeeImport | src/components/onboarding/OnboardingWizard.tsx:156-195 | a successful insert appends one invitation per selected employee and advances to completed |
| Onboarding.Wizard.HandleComplete | src/components/onboarding/OnboardingWizard.tsx:197-200 | with a store and a successful write the marker becomes completed |
| Onboarding.StoreUpdate | src/components/onboarding/OnboardingWizard.tsx:125-133 | the store row with the id takes the form's fields; every other row is unchanged |
| Onboarding.FirstImport | src/components/onboarding/OnboardingWizard.tsx:37-54 | the default import invites 16 people: one shift leader, then fifteen team members |
| AccountManagement.RoleOptions | src/components/team/AccountManagement.tsx:258-265 | team member, shift leader and manager are always offered |
| AccountManagement.ControlGating | src/components/team/AccountManagement.tsx:185-265 | controls never show on the actor's own row; operator is offered iff the actor is an operator; any manager gets the controls on every other member's row, an operator's included, without being offered the operator role |
| AccountManagement.CanManageAccounts | src/components/team/AccountManagement.tsx:185 | manager or operator; `ControlGating` states its effect |
| AccountManagement.ShowRowControls | src/components/team/AccountManagement.tsx:249 | the row-controls guard; `ControlGating` states when it holds |
| AccountManagement.ToggleReason | src/components/team/AccountManagement.tsx:116 | a given reason is kept |
| AccountManagement.DefaultReasons | src/components/team/AccountManagement.tsx:116 | with no reason, "Account activated" iff the account is now active, "Account deactivated" iff not |
| AccountManagement.RoleReason | src/components/team/AccountManagement.tsx:162 | the reason starts with "Role changed from " and has that text plus both roles as its length |
| AccountManagement.RoleReasonNamesBoth | src/components/team/AccountManagement.tsx:162 | the old and the new role both appear in the reason |
| AccountManagement.ToggleRecord | src/components/team/AccountManagement.tsx:104-117 | the audit record is for the member and records the old flag and its opposite |
| AccountManagement.RoleRecord | src/components/team/AccountManagement.tsx:150-163 | the audit record is for the member and records the old role and the new one |
| AccountManagement.SetActive | src/components/team/AccountManagement.tsx:97-102 | the member's active flag is set; every other row is unchanged |
| AccountManagement.SetRole | src/components/team/AccountManagement.tsx:143-148 | the member's role is set; every other row is unchanged |
| AccountManagement.ToggleTwiceRestores | src/components/team/AccountManagement.tsx:93-102 | toggling twice restores the profiles |
| AccountManagement.RoleChangeUndone | src/components/team/AccountManagement.tsx:139-148 | changing a role and changing it back restores the profiles |
| AccountManagement.StoreTeam | src/components/team/AccountManagement.tsx:49-60 | exactly the profiles of the store, newest first: the i-th shown is the i-th from the end of the store's profiles in table order |
| AccountManagement.Newest | src/components/team/AccountManagement.tsx:81-82 | at most 50 records, newest first |
| AccountManagement.LatestLogs | src/components/team/AccountManagement.tsx:73-91 | the records on the profiles table, newest first, cut to 50: the i-th shown is the i-th from the end of the filtered log |
| AccountManagement.NewestShownFirst | src/components/team/AccountManagement.tsx:73-91 | after a new profiles record, it is shown first and the earlier ones move down by one |
| AccountManagement.ActionsAuditProfiles | src/components/team/AccountManagement.tsx:104-163 | both actions write records on the profiles table, so they enter the list |
| AccountManagement.Board.constructor | src/components/team/AccountManagement.tsx:36-41 | starts with the given tables and nothing shown |
| AccountManagement.Board.Refresh | src/components/team/AccountManagement.tsx:42-91 | with a store, shows the store's members newest first and the latest profile records; without one nothing changes |
| AccountManagement.Board.ToggleAccountStatus | src/components/team/AccountManagement.tsx:93-137 | a successful update flips the flag; with the audit write as well the record is appended and, with a store, both lists are reloaded; a failed update changes nothing |
| AccountManagement.Board.UpdateRole | src/components/team/AccountManagement.tsx:139-183 | a successful update sets the role; with the audit write as well the record is appended and, with a store, both lists are reloaded; a failed update changes nothing |
| TeamPage.FilteredMembers | src/components/TeamPage.tsx:100-107 | the kept members are an order-keeping subsequence, all of them match, and every matching member is kept |
| TeamPage.NoFilterKeepsAll | src/components/TeamPage.tsx:100-107 | an empty search with both filters on "all" keeps every member |
| TeamPage.StatusFilterExact | src/components/TeamPage.tsx:104 | a chosen status keeps only members with exactly that status |
| TeamPage.OnShiftCount | src/components/TeamPage.tsx:160 | at most the crew size, and 0 iff nobody is active |
| TeamPage.QCashSplits | src/components/TeamPage.tsx:172 | the Q-Cash total is the on-shift total plus everyone else's |
| TeamPage.QCashTotal | src/components/TeamPage.tsx:172 | the sum of the balances; `QCashSplits` and `QCashBoundsEach` state its properties |
| TeamPage.QCashBoundsEach | src/components/TeamPage.tsx:172 | with no negative balances, the total is at least every member's balance |
| TeamPage.NonNegativeSum | src/components/TeamPage.tsx:172 | non-negative balances give a non-negative total |
| TeamPage.CrewFigures | src/components/TeamPage.tsx:37-98 | the listed crew has four people on shift and 1960 Q-Cash |
| TeamPage.Pieces | src/components/TeamPage.tsx:243 | splitting on a space always gives at least one piece |
| TeamPage.WordStarts | src/components/TeamPage.tsx:243 | the word-initial characters are no longer than the name |
| TeamPage.InitialsAreWordStarts | src/components/TeamPage.tsx:243 | the avatar initials are exactly the non-space characters at the start of the name or after a space |
| TeamPage.Initials | src/components/TeamPage.tsx:243 | the avatar initials; `InitialsAreWordStarts` states which characters they are |
| TeamPage.LaterHeads | src/components/TeamPage.tsx:243 | the pieces after the first give the word starts that follow a space |
| TeamPage.StatusText | src/components/TeamPage.tsx:118-125 | an unknown status is shown as it is |
| TeamPage.StatusTextCollides | src/components/TeamPage.tsx:118-125 | the three labels differ, but the unknown status "On Shift" reads the same as active |
| Util.ReplacePrefix | src/components/SetupSheetsPage.tsx:273 | replacing the first occurrence of a prefix the string starts with strips that prefix |
| Util.ReplaceFirst | src/components/SetupSheetsPage.tsx:273 | `String.replace` with a string pattern: when the pattern occurs, the result is the text with the pattern at its first occurrence (no earlier start matches) replaced; a text without the pattern comes back unchanged |
| Util.TrimEmptyIff | src/components/ChecklistsPage.tsx:434 | the trimmed text is empty iff every character is JavaScript whitespace |
| Util.Trim | src/components/ChecklistsPage.tsx:434 | `String.trim`: the result is a slice of the text, everything cut off on either side is JavaScript whitespace, and a non-empty result neither starts nor ends with whitespace |
| Util.ToLower | src/components/TeamPage.tsx:101-103 | `toLowerCase` over ASCII: the same length, each capital letter lowered and every other character kept |
| Util.Filter | src/components/TeamPage.tsx:100-106 | `Array.filter`: every kept element passes the test and comes from the input, and every input element that passes is kept |
| Util.FilterIsSubsequence | src/components/TeamPage.tsx:100-107 | a filter result is an order-keeping subsequence of its input |
| Util.SortBy | src/components/ChecklistsPage.tsx:221 | the sort is sorted by the key and is a permutation of its input |
| Util.RoundPercent | src/components/training/TrainingChecklist.tsx:84 | `Math.round(part / whole * 100)`: the nearest integer, halves up |
| Util.PercentBounds | src/components/TrainingPage.tsx:178 | a rounded share of at most the whole lies in 0..100, is 0 for no part and 100 for the whole |
| Util.PercentNearest | src/components/training/TrainingChecklist.tsx:84 | the rounded percentage is within half a point of the exact one |
| Util.CeilDiv | src/components/training/TrainingInstanceCard.tsx:92 | `Math.ceil(d / q)`: the least r with d <= r × q |
| Util.WholeMinutes | src/components/training/TrainingChecklist.tsx:107 | `Math.floor(ms / 60000)` of a non-negative duration: the whole minutes it holds |

## Left out

- The back end is not modelled: Supabase queries, authentication, row-level security and the network. Each call becomes a table field plus a `bool` that says whether the call succeeded. Identifiers, timestamps and default column values the back end produces are parameters.
- The store's edge function that emails invitations is not modelled.
- Rendering is not modelled: colours, icons, toasts, loading flags and the drag-and-drop library. A drop is modelled as the result object the library hands over.
- Asynchronous interleaving is not modelled. Each handler runs to completion before the next one starts. Each handler reads the clock once.
- Server-side ordering is taken from the order rows were appended:
  - profiles by descending `created_at` and audit logs by descending `changed_at` are the table read backwards (`StoreTeam`, `LatestLogs`), since rows are appended as they are created;
  - templates by `name` are taken in table order, so the name order itself is not modelled.
  Task and instance order by `order_index` and `assigned_at` is modelled by a stable sort.
- `.single()` row-count errors are not modelled. The existence check in createDailyChecklists (`src/components/ChecklistsPage.tsx:289-297`) ignores its lookup error. When two checklists already exist, the code would create a third; the model treats any existing checklist as found.
- Floating point is not modelled:
  - percentages are computed exactly, as rationals or integers;
  - `Math.round` and `Math.ceil` are written out over integers;
  - the checklist progress is a `real`;
  - the team page's average rating (`src/components/TeamPage.tsx:184`) is not modelled;
  - the onboarding progress bar (`src/components/onboarding/OnboardingWizard.tsx:206`) is not modelled.
- `toLowerCase` is ASCII only. Unicode case mapping is not modelled.
- Task notes are not modelled: `updateTaskNotes` and the notes field (`src/components/training/TrainingChecklist.tsx:185-212`) edit free text that no other operation reads.
- Shift assignments get `is_scheduled` as a class parameter. It stands for a column default the back end supplies.
- Joins are flattened:
  - the `!inner` join of training instances to their templates (`src/components/TrainingPage.tsx:99`) becomes a lookup by id that drops an instance without a template (`OwnInstances`);
  - the `shift_assignments!inner` join of the shifts query (`src/components/ShiftsPage.tsx:111`) belongs to the unmodelled query: the model starts from the fetched rows, so the shifts that join leaves out (those with no assignment) never reach it;
  - nullable columns are plain values, or `Option` where the code tests for null.
- The onboarding marker upsert is assumed to be keyed by store id.
- Navigation after handleComplete is not modelled.
- The account page shows only the first 10 of the 50 loaded audit records (`src/components/team/AccountManagement.tsx:317`). That is rendering, so it is not modelled.
- Checklists.ChecklistBoard.CreateDailyChecklists: when a write fails part-way, the contract states only that both tables grew (old rows kept as a prefix), not which templates were already done.
- Reload failures are not modelled:
  - AccountManagement.Board.Refresh: a failed reload, which only shows a toast, is not modelled.
  - TrainingPage.Board.RequestApproval, TrainingPage.Board.ApproveTraining and TrainingPage.Board.AssignTemplate: the data reload after the write is a `DataLoad` outcome; network interleaving with other writes is not modelled.
- The dashboard, layout, auth page and auth context are not part of this model.
