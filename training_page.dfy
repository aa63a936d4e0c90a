/**
 * The training page: who counts as a leader, the instance lifecycle
 * writes (assign, start, request approval, approve), the merge of
 * template tasks with instance tasks behind the checklist screen, the
 * team progress a leader sees, milestones and the template filter.
 * Times are milliseconds since the epoch and are parameters.
 */
module TrainingPage {
  import opened Util
  import Card = TrainingInstanceCard
  import TC = TrainingChecklist

  /** A profiles row; an empty store id stands for none. */
  datatype Profile = Profile(id: string, firstName: string, lastName: string, role: string, storeId: string)

  /** A training_templates row. */
  datatype TemplateRow = TemplateRow(
    id: string,
    storeId: string,
    name: string,
    description: string,
    level: Card.Level,
    category: string,
    roleRequirements: seq<string>,
    estimatedDurationHours: int,
    certificationRequired: bool,
    isActive: bool)

  /** A training_instances row. */
  datatype InstanceRow = InstanceRow(
    id: string,
    templateId: string,
    profileId: string,
    status: Card.InstanceStatus,
    assignedAt: int,
    assignedBy: Option<string>,
    startedAt: Option<int>,
    completedAt: Option<int>,
    approvedAt: Option<int>,
    approvedBy: Option<string>,
    certificationEarned: bool)

  /** A training_template_tasks row. */
  datatype TemplateTaskRow = TemplateTaskRow(
    id: string,
    templateId: string,
    title: string,
    description: string,
    estimatedMinutes: int,
    isRequired: bool,
    orderIndex: int,
    taskType: TC.TaskType)

  /** An instance as the page lists it: the row with its template joined on. */
  datatype LoadedInstance = LoadedInstance(row: InstanceRow, template: TemplateRow)

  // ---------------------------------------------------------------------
  // Leaders and milestones
  // ---------------------------------------------------------------------

  /** `isLeader`: a signed-in profile whose role is shift_leader, manager or operator. */
  predicate IsLeader(actor: Option<Profile>) {
    actor.Some? && actor.value.role in ["shift_leader", "manager", "operator"]
  }

  /** getNextMilestone: a fixed milestone for five roles, a generic one otherwise. */
  function NextMilestone(role: string): (r: string)
    ensures role == "team_member" ==> r == "Customer Service Certification"
    ensures role == "prep_cook" ==> r == "Food Safety Certification"
    ensures role == "pitmaster" ==> r == "Advanced Smoking Techniques"
    ensures role == "shift_leader" ==> r == "Leadership Excellence"
    ensures role == "manager" ==> r == "Operations Management"
  {
    if role == "team_member" then "Customer Service Certification"
    else if role == "prep_cook" then "Food Safety Certification"
    else if role == "pitmaster" then "Advanced Smoking Techniques"
    else if role == "shift_leader" then "Leadership Excellence"
    else if role == "manager" then "Operations Management"
    else "Next Level Training"
  }

  /**
   * The generic milestone is given exactly to the roles outside the table;
   * the operator, although a leader, is one of them.
   */
  lemma MilestoneFallback(role: string)
    ensures NextMilestone(role) == "Next Level Training" <==>
              role !in ["team_member", "prep_cook", "pitmaster", "shift_leader", "manager"]
    ensures NextMilestone("operator") == "Next Level Training"
  {
  }

  // ---------------------------------------------------------------------
  // Template filter
  // ---------------------------------------------------------------------

  /** The role and search conditions of filteredTemplates for one template. */
  predicate TemplateMatches(t: TemplateRow, selectedRole: string, searchTerm: string) {
    (selectedRole == "all" || selectedRole in t.roleRequirements || "team_member" in t.roleRequirements)
    && (Contains(ToLower(t.name), ToLower(searchTerm)) || Contains(ToLower(t.description), ToLower(searchTerm)))
  }

  function MatchesFilter(selectedRole: string, searchTerm: string): TemplateRow -> bool {
    (t: TemplateRow) => TemplateMatches(t, selectedRole, searchTerm)
  }

  /** filteredTemplates: the matching templates, in list order. */
  function FilteredTemplates(templates: seq<TemplateRow>, selectedRole: string, searchTerm: string): (r: seq<TemplateRow>)
    ensures IsSubsequence(r, templates)
    ensures forall i :: 0 <= i < |r| ==> TemplateMatches(r[i], selectedRole, searchTerm)
    ensures forall i :: 0 <= i < |templates| && TemplateMatches(templates[i], selectedRole, searchTerm) ==> templates[i] in r
  {
    FilterIsSubsequence(templates, MatchesFilter(selectedRole, searchTerm));
    Filter(templates, MatchesFilter(selectedRole, searchTerm))
  }

  /** With role "all" and an empty search every template is listed. */
  lemma EmptyFilterKeepsAll(templates: seq<TemplateRow>)
    ensures forall i :: 0 <= i < |templates| ==> templates[i] in FilteredTemplates(templates, "all", "")
  {
    forall i | 0 <= i < |templates|
      ensures TemplateMatches(templates[i], "all", "")
    {
      ContainsEmpty(ToLower(templates[i].name));
    }
  }

  /**
   * A template that lists team_member passes the role condition for any
   * selected role, so it shows under every role filter that its name or
   * description matches.
   */
  lemma TeamMemberTemplatesAlwaysShown(templates: seq<TemplateRow>, k: nat, selectedRole: string, searchTerm: string)
    requires k < |templates| && "team_member" in templates[k].roleRequirements
    requires Contains(ToLower(templates[k].name), ToLower(searchTerm))
    ensures templates[k] in FilteredTemplates(templates, selectedRole, searchTerm)
  {
  }

  /** The search condition of filteredInstances: the joined template's name or description. */
  predicate InstanceMatches(i: LoadedInstance, searchTerm: string) {
    Contains(ToLower(i.template.name), ToLower(searchTerm)) || Contains(ToLower(i.template.description), ToLower(searchTerm))
  }

  function SearchFilter(searchTerm: string): LoadedInstance -> bool {
    (i: LoadedInstance) => InstanceMatches(i, searchTerm)
  }

  /** filteredInstances: the listed instances whose template matches the search, in list order. */
  function FilteredInstances(list: seq<LoadedInstance>, searchTerm: string): (r: seq<LoadedInstance>)
    ensures IsSubsequence(r, list)
    ensures forall k :: 0 <= k < |r| ==> InstanceMatches(r[k], searchTerm)
    ensures forall k :: 0 <= k < |list| && InstanceMatches(list[k], searchTerm) ==> list[k] in r
  {
    FilterIsSubsequence(list, SearchFilter(searchTerm));
    Filter(list, SearchFilter(searchTerm))
  }

  /**
   * The instance list ignores the role filter: an instance is shown
   * exactly when its template would pass filteredTemplates with role
   * "all", and an empty search shows every instance.
   */
  lemma InstancesIgnoreRole(list: seq<LoadedInstance>, searchTerm: string)
    ensures forall k :: 0 <= k < |list| ==>
              (list[k] in FilteredInstances(list, searchTerm) <==> TemplateMatches(list[k].template, "all", searchTerm))
    ensures forall k :: 0 <= k < |list| ==> list[k] in FilteredInstances(list, "")
  {
    forall k | 0 <= k < |list|
      ensures InstanceMatches(list[k], "")
    {
      ContainsEmpty(ToLower(list[k].template.name));
    }
  }

  // ---------------------------------------------------------------------
  // Instance lifecycle writes
  // ---------------------------------------------------------------------

  /** The patches the handlers write to a training_instances row. */
  datatype Patch =
    | StartPatch(at: int)
    | CompletePatch(at: int)
    | ApprovePatch(at: int, approver: string, certification: bool)

  function ApplyPatch(row: InstanceRow, p: Patch): (r: InstanceRow)
    ensures r.id == row.id && r.templateId == row.templateId && r.profileId == row.profileId
    ensures r.assignedAt == row.assignedAt && r.assignedBy == row.assignedBy
    ensures p.StartPatch? ==>
              && r.status == Card.InProgress && r.startedAt == Some(p.at)
              && r.completedAt == row.completedAt && r.approvedAt == row.approvedAt
              && r.approvedBy == row.approvedBy && r.certificationEarned == row.certificationEarned
    ensures p.CompletePatch? ==>
              && r.status == Card.Completed && r.completedAt == Some(p.at)
              && r.startedAt == row.startedAt && r.approvedAt == row.approvedAt
              && r.approvedBy == row.approvedBy && r.certificationEarned == row.certificationEarned
    ensures p.ApprovePatch? ==>
              && r.status == Card.Approved && r.approvedAt == Some(p.at) && r.approvedBy == Some(p.approver)
              && r.certificationEarned == p.certification
              && r.startedAt == row.startedAt && r.completedAt == row.completedAt
  {
    match p
    case StartPatch(at) => row.(status := Card.InProgress, startedAt := Some(at))
    case CompletePatch(at) => row.(status := Card.Completed, completedAt := Some(at))
    case ApprovePatch(at, approver, cert) =>
      row.(status := Card.Approved, approvedAt := Some(at), approvedBy := Some(approver), certificationEarned := cert)
  }

  /** `update(...).eq('id', id)`: every row with that id takes the patch. */
  function PatchRows(rows: seq<InstanceRow>, id: string, p: Patch): (r: seq<InstanceRow>)
    ensures |r| == |rows|
    ensures forall i :: 0 <= i < |rows| ==> r[i] == if rows[i].id == id then ApplyPatch(rows[i], p) else rows[i]
  {
    seq(|rows|, i requires 0 <= i < |rows| => if rows[i].id == id then ApplyPatch(rows[i], p) else rows[i])
  }

  /**
   * No patch looks at the current status: starting, requesting approval
   * and approving reach their status from any status, including an
   * expired or already approved instance; approval copies the
   * certification flag it is given whatever it was.
   */
  lemma PatchesIgnoreStatus(row: InstanceRow, p: Patch)
    ensures p.StartPatch? ==> ApplyPatch(row, p).status == Card.InProgress && ApplyPatch(row, p).startedAt == Some(p.at)
    ensures p.CompletePatch? ==> ApplyPatch(row, p).status == Card.Completed && ApplyPatch(row, p).completedAt == Some(p.at)
    ensures p.ApprovePatch? ==>
              && ApplyPatch(row, p).status == Card.Approved
              && ApplyPatch(row, p).approvedBy == Some(p.approver)
              && ApplyPatch(row, p).certificationEarned == p.certification
  {
  }

  /**
   * The intended path assigned -> in progress -> completed -> approved
   * leaves every step's time and the approver on the row.
   */
  lemma Lifecycle(row: InstanceRow, t1: int, t2: int, t3: int, approver: string, cert: bool)
    ensures var r := ApplyPatch(ApplyPatch(ApplyPatch(row, StartPatch(t1)), CompletePatch(t2)), ApprovePatch(t3, approver, cert));
            && r.status == Card.Approved
            && r.startedAt == Some(t1) && r.completedAt == Some(t2) && r.approvedAt == Some(t3)
            && r.approvedBy == Some(approver) && r.certificationEarned == cert
            && r.assignedAt == row.assignedAt
  {
  }

  /**
   * Requesting approval again after approval sets the status back to
   * completed while the approver, approval time and certification stay.
   */
  lemma RequestAfterApproval(row: InstanceRow, t1: int, t2: int, approver: string, cert: bool)
    ensures var r := ApplyPatch(ApplyPatch(row, ApprovePatch(t1, approver, cert)), CompletePatch(t2));
            r.status == Card.Completed && r.approvedBy == Some(approver) && r.approvedAt == Some(t1)
            && r.certificationEarned == cert
  {
  }

  // ---------------------------------------------------------------------
  // Task merge
  // ---------------------------------------------------------------------

  function FindInstanceTask(its: seq<TC.InstanceTaskRow>, templateTaskId: string): (r: Option<TC.InstanceTaskRow>)
    ensures r.Some? ==> r.value in its && r.value.templateTaskId == templateTaskId
    ensures r.None? ==> forall j :: 0 <= j < |its| ==> its[j].templateTaskId != templateTaskId
  {
    if its == [] then None
    else if its[0].templateTaskId == templateTaskId then Some(its[0])
    else FindInstanceTask(its[1..], templateTaskId)
  }

  /** One checklist entry: the template task with the first matching instance task's progress. */
  function MergeOne(t: TemplateTaskRow, it: Option<TC.InstanceTaskRow>): TC.TrainingTask {
    TC.TrainingTask(t.id, t.title, t.description, t.estimatedMinutes, t.isRequired, t.orderIndex, t.taskType,
      if it.Some? then it.value.status else TC.Pending,
      if it.Some? then it.value.completedAt else None,
      if it.Some? then it.value.timeSpentMinutes else 0,
      if it.Some? then it.value.score else None)
  }

  /**
   * The combined tasks: one entry per template task, in template order,
   * carrying the template's fields and the matching instance task's
   * progress, or pending with 0 minutes where there is none.
   */
  function Merge(tts: seq<TemplateTaskRow>, its: seq<TC.InstanceTaskRow>): (r: seq<TC.TrainingTask>)
    ensures |r| == |tts|
    ensures forall i :: 0 <= i < |r| ==>
              && r[i].id == tts[i].id && r[i].title == tts[i].title && r[i].orderIndex == tts[i].orderIndex
              && r[i].description == tts[i].description && r[i].estimatedMinutes == tts[i].estimatedMinutes
              && r[i].isRequired == tts[i].isRequired && r[i].taskType == tts[i].taskType
              && (FindInstanceTask(its, tts[i].id).None? ==>
                    r[i].status == TC.Pending && r[i].timeSpentMinutes == 0 && r[i].completedAt.None? && r[i].score.None?)
              && (FindInstanceTask(its, tts[i].id).Some? ==>
                    var it := FindInstanceTask(its, tts[i].id).value;
                    r[i].status == it.status && r[i].timeSpentMinutes == it.timeSpentMinutes
                    && r[i].completedAt == it.completedAt && r[i].score == it.score)
  {
    seq(|tts|, i requires 0 <= i < |tts| => MergeOne(tts[i], FindInstanceTask(its, tts[i].id)))
  }

  function TemplateTaskOrder(t: TemplateTaskRow): int { t.orderIndex }

  function TaskOrder(t: TC.TrainingTask): int { t.orderIndex }

  /** Template tasks ordered by order_index give a checklist in the same order. */
  lemma MergeKeepsOrder(tts: seq<TemplateTaskRow>, its: seq<TC.InstanceTaskRow>)
    requires SortedBy(tts, TemplateTaskOrder)
    ensures SortedBy(Merge(tts, its), TaskOrder)
  {
    var r := Merge(tts, its);
    forall i, j | 0 <= i <= j < |r|
      ensures TaskOrder(r[i]) <= TaskOrder(r[j])
    {
      assert TemplateTaskOrder(tts[i]) <= TemplateTaskOrder(tts[j]);
    }
  }

  function OfInstance(instanceId: string): TC.InstanceTaskRow -> bool {
    (row: TC.InstanceTaskRow) => row.instanceId == instanceId
  }

  /** `select(...).eq('instance_id', id)` on training_instance_tasks. */
  function InstanceTasksOf(rows: seq<TC.InstanceTaskRow>, instanceId: string): seq<TC.InstanceTaskRow> {
    Filter(rows, OfInstance(instanceId))
  }

  function OfTemplate(templateId: string): TemplateTaskRow -> bool {
    (t: TemplateTaskRow) => t.templateId == templateId
  }

  /** The template's tasks, ordered by order_index. */
  function TemplateTasksOf(rows: seq<TemplateTaskRow>, templateId: string): (r: seq<TemplateTaskRow>)
    ensures SortedBy(r, TemplateTaskOrder)
    ensures multiset(r) == multiset(Filter(rows, OfTemplate(templateId)))
  {
    SortBy(Filter(rows, OfTemplate(templateId)), TemplateTaskOrder)
  }

  /** The rows inserted for an instance without tasks: one pending row with 0 minutes per template task. */
  function NewTaskRows(instanceId: string, tts: seq<TemplateTaskRow>): (r: seq<TC.InstanceTaskRow>)
    ensures |r| == |tts|
    ensures forall i :: 0 <= i < |r| ==> r[i].instanceId == instanceId && r[i].templateTaskId == tts[i].id
  {
    seq(|tts|, i requires 0 <= i < |tts| => TC.InstanceTaskRow(instanceId, tts[i].id, TC.Pending, None, 0, None))
  }

  /**
   * When an instance had no task rows, the checklist built after creating
   * them has one entry per template task, every one pending with 0
   * minutes and no completion time.
   */
  lemma FreshChecklistPending(rows: seq<TC.InstanceTaskRow>, instanceId: string, tts: seq<TemplateTaskRow>)
    requires InstanceTasksOf(rows, instanceId) == []
    ensures var r := Merge(tts, InstanceTasksOf(rows + NewTaskRows(instanceId, tts), instanceId));
            |r| == |tts| &&
            forall i :: 0 <= i < |r| ==> r[i].status == TC.Pending && r[i].timeSpentMinutes == 0 && r[i].completedAt.None?
  {
    var created := NewTaskRows(instanceId, tts);
    var its := InstanceTasksOf(rows + created, instanceId);
    forall j | 0 <= j < |its|
      ensures its[j] in created
    {
      assert its[j] in rows + created && its[j].instanceId == instanceId;
    }
    forall i | 0 <= i < |tts|
      ensures var f := FindInstanceTask(its, tts[i].id);
              f.Some? ==> f.value.status == TC.Pending && f.value.timeSpentMinutes == 0 && f.value.completedAt.None?
    {
      var f := FindInstanceTask(its, tts[i].id);
      if f.Some? {
        var j :| 0 <= j < |its| && its[j] == f.value;
        var k :| 0 <= k < |created| && created[k] == its[j];
      }
    }
  }

  // ---------------------------------------------------------------------
  // Team progress
  // ---------------------------------------------------------------------

  /** A member's instance as the team query returns it; the template may be missing. */
  datatype MemberInstance = MemberInstance(status: Card.InstanceStatus, certificationEarned: bool, templateName: Option<string>)

  datatype MemberProgress = MemberProgress(
    id: string,
    name: string,
    role: string,
    completedModules: nat,
    totalModules: nat,
    progressPercentage: int,
    certifications: seq<string>,
    nextMilestone: string)

  predicate IsApproved(i: MemberInstance) {
    i.status == Card.Approved
  }

  /** A certification name: an earned certification with a non-empty template name. */
  predicate Certifies(i: MemberInstance) {
    i.certificationEarned && i.templateName.Some? && i.templateName.value != ""
  }

  /** The certification names, in instance order. */
  function Certifications(s: seq<MemberInstance>): (r: seq<string>)
    ensures |r| <= |s|
  {
    if s == [] then []
    else if Certifies(s[0]) then [s[0].templateName.value] + Certifications(s[1..])
    else Certifications(s[1..])
  }

  /**
   * The certifications are exactly the template names of the instances
   * with an earned certification and a non-empty name.
   */
  lemma {:induction false} CertificationsMatch(s: seq<MemberInstance>)
    ensures forall k :: 0 <= k < |Certifications(s)| ==>
              exists i :: 0 <= i < |s| && Certifies(s[i]) && s[i].templateName.value == Certifications(s)[k]
    ensures forall i :: 0 <= i < |s| && Certifies(s[i]) ==> s[i].templateName.value in Certifications(s)
  {
    if s != [] {
      CertificationsMatch(s[1..]);
      assert forall i :: 1 <= i < |s| ==> s[i] == s[1..][i - 1];
      var r := Certifications(s);
      var rest := Certifications(s[1..]);
      assert r == if Certifies(s[0]) then [s[0].templateName.value] + rest else rest;
      forall k | 0 <= k < |r|
        ensures exists i :: 0 <= i < |s| && Certifies(s[i]) && s[i].templateName.value == r[k]
      {
        if Certifies(s[0]) && k == 0 {
          assert Certifies(s[0]) && s[0].templateName.value == r[k];
        } else {
          var k' := if Certifies(s[0]) then k - 1 else k;
          assert r[k] == rest[k'];
          var i :| 0 <= i < |s[1..]| && Certifies(s[1..][i]) && s[1..][i].templateName.value == rest[k'];
          assert s[i + 1] == s[1..][i];
        }
      }
      assert forall x :: x in rest ==> x in r;
    } else {
      assert Certifications(s) == [];
    }
  }

  /** The number of approved instances. */
  function ApprovedCount(s: seq<MemberInstance>): (n: nat)
    ensures n <= |s|
  {
    if s == [] then 0 else (if IsApproved(s[0]) then 1 else 0) + ApprovedCount(s[1..])
  }

  /** Every instance approved exactly when the approved count is the total. */
  lemma {:induction false} ApprovedCountFull(s: seq<MemberInstance>)
    ensures ApprovedCount(s) == |s| <==> forall i :: 0 <= i < |s| ==> IsApproved(s[i])
    ensures ApprovedCount(s) == 0 <==> forall i :: 0 <= i < |s| ==> !IsApproved(s[i])
  {
    if s != [] {
      ApprovedCountFull(s[1..]);
      assert forall i :: 1 <= i < |s| ==> s[i] == s[1..][i - 1];
    }
  }

  /** One entry of the leader's team view. */
  function ProgressOf(m: Profile, s: seq<MemberInstance>): MemberProgress {
    var done := ApprovedCount(s);
    MemberProgress(m.id, m.firstName + " " + m.lastName, m.role, done, |s|,
      if |s| > 0 then RoundPercent(done, |s|) else 0,
      Certifications(s), NextMilestone(m.role))
  }

  /**
   * Completed modules never exceed the total; the percentage lies in
   * 0..100, is 0 without instances or approvals, and is 100 when every
   * instance is approved.
   */
  lemma ProgressOfBounds(m: Profile, s: seq<MemberInstance>)
    ensures var p := ProgressOf(m, s);
            && p.totalModules == |s|
            && p.completedModules <= p.totalModules
            && 0 <= p.progressPercentage <= 100
            && (p.completedModules == 0 ==> p.progressPercentage == 0)
            && (s != [] && p.completedModules == p.totalModules ==> p.progressPercentage == 100)
            && (s != [] ==> 2 * |s| * p.progressPercentage <= 200 * p.completedModules + |s| < 2 * |s| * (p.progressPercentage + 1))
            && (p.completedModules == p.totalModules <==> forall i :: 0 <= i < |s| ==> s[i].status == Card.Approved)
  {
    ApprovedCountFull(s);
    if s != [] {
      PercentBounds(ApprovedCount(s), |s|);
    }
  }

  function OwnedBy(profileId: string): InstanceRow -> bool {
    (row: InstanceRow) => row.profileId == profileId
  }

  function FindTemplate(templates: seq<TemplateRow>, id: string): (r: Option<TemplateRow>)
    ensures r.Some? ==> r.value in templates && r.value.id == id
    ensures r.None? ==> forall j :: 0 <= j < |templates| ==> templates[j].id != id
  {
    if templates == [] then None
    else if templates[0].id == id then Some(templates[0])
    else FindTemplate(templates[1..], id)
  }

  /** A member's instances with their template names (a left join). */
  function MemberInstances(rows: seq<InstanceRow>, templates: seq<TemplateRow>, memberId: string): (r: seq<MemberInstance>)
    ensures var own := Filter(rows, OwnedBy(memberId));
            && |r| == |own|
            && forall i :: 0 <= i < |r| ==>
                 && r[i].status == own[i].status && r[i].certificationEarned == own[i].certificationEarned
                 && (r[i].templateName.None? <==> forall j :: 0 <= j < |templates| ==> templates[j].id != own[i].templateId)
                 && (r[i].templateName.Some? ==>
                       exists j :: 0 <= j < |templates| && templates[j].id == own[i].templateId
                                   && templates[j].name == r[i].templateName.value)
  {
    var own := Filter(rows, OwnedBy(memberId));
    seq(|own|, i requires 0 <= i < |own| =>
      var t := FindTemplate(templates, own[i].templateId);
      MemberInstance(own[i].status, own[i].certificationEarned, if t.Some? then Some(t.value.name) else None))
  }

  /**
   * The team view built member by member; a member whose instance query
   * failed is skipped.
   */
  function TeamProgress(members: seq<Profile>, rows: seq<InstanceRow>, templates: seq<TemplateRow>, failed: set<string>): (r: seq<MemberProgress>)
    ensures |r| <= |members|
  {
    if members == [] then []
    else
      var n := |members| - 1;
      var m := members[n];
      var rest := TeamProgress(members[..n], rows, templates, failed);
      if m.id in failed then rest
      else rest + [ProgressOf(m, MemberInstances(rows, templates, m.id))]
  }

  function Succeeded(failed: set<string>): Profile -> bool {
    (m: Profile) => m.id !in failed
  }

  /**
   * The team view has one entry per member whose instance query
   * succeeded, in member order, and each entry is that member's summary
   * over the member's own instances.
   */
  lemma {:induction false} TeamProgressMembers(members: seq<Profile>, rows: seq<InstanceRow>, templates: seq<TemplateRow>, failed: set<string>)
    ensures var r := TeamProgress(members, rows, templates, failed);
            var listed := Filter(members, Succeeded(failed));
            && |r| == |listed|
            && forall k :: 0 <= k < |r| ==> r[k] == ProgressOf(listed[k], MemberInstances(rows, templates, listed[k].id))
  {
    if members != [] {
      var n := |members| - 1;
      assert members == members[..n] + [members[n]];
      FilterSnoc(members[..n], members[n], Succeeded(failed));
      TeamProgressMembers(members[..n], rows, templates, failed);
    }
  }

  function Colleague(storeId: string, selfId: string): Profile -> bool {
    (p: Profile) => p.storeId == storeId && p.id != selfId
  }

  function ActiveIn(storeId: string): TemplateRow -> bool {
    (t: TemplateRow) => t.storeId == storeId && t.isActive
  }

  function NewestFirst(i: LoadedInstance): int { -i.row.assignedAt }

  /** The actor's own instances whose template exists (an inner join). */
  function OwnInstances(rows: seq<InstanceRow>, templates: seq<TemplateRow>, profileId: string): (r: seq<LoadedInstance>)
    ensures forall k :: 0 <= k < |r| ==>
              && r[k].row.profileId == profileId && r[k].row in rows
              && r[k].template in templates && r[k].template.id == r[k].row.templateId
    ensures forall j :: 0 <= j < |rows| && rows[j].profileId == profileId && FindTemplate(templates, rows[j].templateId).Some? ==>
              LoadedInstance(rows[j], FindTemplate(templates, rows[j].templateId).value) in r
  {
    if rows == [] then []
    else
      var rest := OwnInstances(rows[1..], templates, profileId);
      var t := FindTemplate(templates, rows[0].templateId);
      assert forall k :: 0 <= k < |rest| ==> rest[k].row in rows;
      assert forall j :: 1 <= j < |rows| ==> rows[j] == rows[1..][j - 1];
      if rows[0].profileId == profileId && t.Some? then [LoadedInstance(rows[0], t.value)] + rest else rest
  }

  /** The actor's list, newest first, still holds only the actor's instances. */
  lemma OwnListSorted(rows: seq<InstanceRow>, templates: seq<TemplateRow>, profileId: string)
    ensures forall k :: 0 <= k < |SortBy(OwnInstances(rows, templates, profileId), NewestFirst)| ==>
              && SortBy(OwnInstances(rows, templates, profileId), NewestFirst)[k].row.profileId == profileId
              && SortBy(OwnInstances(rows, templates, profileId), NewestFirst)[k].row in rows
  {
    var own := OwnInstances(rows, templates, profileId);
    var r := SortBy(own, NewestFirst);
    forall k | 0 <= k < |r|
      ensures r[k].row.profileId == profileId && r[k].row in rows
    {
      assert r[k] in multiset(own);
    }
  }

  /** Which of loadTrainingData's queries fail, and which members' instance queries fail. */
  datatype DataLoad = DataLoad(instancesOk: bool, templatesOk: bool, teamOk: bool, failedMembers: set<string>)

  /** Which step of loadTrainingChecklist fails, if any. */
  datatype ChecklistLoad = Loaded | TemplateTasksFail | InstanceTasksFail | InsertFail | ReloadFail

  function FindLoaded(list: seq<LoadedInstance>, id: string): (r: Option<LoadedInstance>)
    ensures r.Some? ==> r.value in list && r.value.row.id == id
    ensures r.None? ==> forall j :: 0 <= j < |list| ==> list[j].row.id != id
  {
    if list == [] then None
    else if list[0].row.id == id then Some(list[0])
    else FindLoaded(list[1..], id)
  }

  /** The training page with its backend tables. */
  class Board {
    const actor: Option<Profile>
    var profiles: seq<Profile>
    var templates: seq<TemplateRow>
    var instances: seq<InstanceRow>
    var templateTasks: seq<TemplateTaskRow>
    var instanceTasks: seq<TC.InstanceTaskRow>

    var trainingInstances: seq<LoadedInstance>
    var trainingTemplates: seq<TemplateRow>
    var teamProgress: seq<MemberProgress>
    var showChecklist: bool
    var selectedInstance: Option<LoadedInstance>
    var checklistTasks: seq<TC.TrainingTask>

    /** Everything listed, and so everything selected, belongs to the signed-in profile. */
    predicate Valid()
      reads this
    {
      && (forall k :: 0 <= k < |trainingInstances| ==> actor.Some? && trainingInstances[k].row.profileId == actor.value.id)
      && (selectedInstance.Some? ==> actor.Some? && selectedInstance.value.row.profileId == actor.value.id)
    }

    /**
     * The lists loadTrainingData leaves, given those shown before. Nothing
     * is loaded without a signed-in actor with a store, and the first
     * query that fails keeps the lists it and the later queries would
     * have replaced.
     */
    predicate Reloaded(load: DataLoad, listedBefore: seq<LoadedInstance>, templatesBefore: seq<TemplateRow>,
                       teamBefore: seq<MemberProgress>)
      reads this
    {
      var own := actor.Some? && actor.value.storeId != "" && load.instancesOk;
      var offered := own && load.templatesOk;
      var team := offered && IsLeader(actor) && load.teamOk;
      && (own ==> SortedBy(trainingInstances, NewestFirst)
                  && multiset(trainingInstances) == multiset(OwnInstances(instances, templates, actor.value.id)))
      && (!own ==> trainingInstances == listedBefore)
      && (offered ==> trainingTemplates == Filter(templates, ActiveIn(actor.value.storeId)))
      && (!offered ==> trainingTemplates == templatesBefore)
      && (team ==> teamProgress == TeamProgress(Filter(profiles, Colleague(actor.value.storeId, actor.value.id)),
                                                instances, templates, load.failedMembers))
      && (!team ==> teamProgress == teamBefore)
    }

    /**
     * The task rows and checklist screen loadTrainingChecklist leaves for
     * the listed instance `found` (None when the id is not listed), given
     * the rows and the screen before: pending rows are created when the
     * instance has none, and the screen opens on the merge unless a step
     * fails first.
     */
    predicate ChecklistOpened(instanceId: string, step: ChecklistLoad, found: Option<LoadedInstance>,
                              rowsBefore: seq<TC.InstanceTaskRow>, shownBefore: bool,
                              selectedBefore: Option<LoadedInstance>, tasksBefore: seq<TC.TrainingTask>)
      reads this
    {
      var tts := TemplateTasksOf(templateTasks, if found.Some? then found.value.row.templateId else "");
      var existing := InstanceTasksOf(rowsBefore, instanceId);
      var queried := found.Some? && step != TemplateTasksFail && step != InstanceTasksFail;
      var inserts := queried && existing == [] && step != InsertFail;
      var opens := queried && (existing != [] || step == Loaded);
      && instanceTasks == (if inserts then rowsBefore + NewTaskRows(instanceId, tts) else rowsBefore)
      && (opens ==>
            && showChecklist && selectedInstance == found
            && checklistTasks == Merge(tts, InstanceTasksOf(instanceTasks, instanceId)))
      && (!opens ==>
            showChecklist == shownBefore && selectedInstance == selectedBefore && checklistTasks == tasksBefore)
    }

    constructor (actor: Option<Profile>, profiles: seq<Profile>, templates: seq<TemplateRow>, instances: seq<InstanceRow>,
                 templateTasks: seq<TemplateTaskRow>, instanceTasks: seq<TC.InstanceTaskRow>)
      ensures this.actor == actor && this.profiles == profiles && this.templates == templates
      ensures this.instances == instances && this.templateTasks == templateTasks && this.instanceTasks == instanceTasks
      ensures trainingInstances == [] && trainingTemplates == [] && teamProgress == []
      ensures !showChecklist && selectedInstance.None? && checklistTasks == []
      ensures Valid()
    {
      this.actor := actor;
      this.profiles := profiles;
      this.templates := templates;
      this.instances := instances;
      this.templateTasks := templateTasks;
      this.instanceTasks := instanceTasks;
      trainingInstances := [];
      trainingTemplates := [];
      teamProgress := [];
      showChecklist := false;
      selectedInstance := None;
      checklistTasks := [];
    }

    /** The team loop: one entry per colleague whose instance query succeeds. */
    method BuildTeamProgress(members: seq<Profile>, failed: set<string>) returns (progress: seq<MemberProgress>)
      ensures progress == TeamProgress(members, instances, templates, failed)
    {
      progress := [];
      var i := 0;
      while i < |members|
        invariant 0 <= i <= |members|
        invariant progress == TeamProgress(members[..i], instances, templates, failed)
      {
        var member := members[i];
        assert members[..i + 1][..i] == members[..i];
        if member.id in failed {
          i := i + 1;
          continue;
        }
        var own := MemberInstances(instances, templates, member.id);
        progress := progress + [ProgressOf(member, own)];
        i := i + 1;
      }
      assert members[..i] == members;
    }

    /**
     * loadTrainingData. Nothing happens without a store. The queries run
     * in turn and the first failure stops the rest: the actor's own
     * instances newest first, the store's active templates, and for a
     * leader the progress of every other profile of the store.
     */
    method LoadTrainingData(load: DataLoad)
      requires Valid()
      modifies this
      ensures Valid()
      ensures instances == old(instances) && templates == old(templates) && profiles == old(profiles)
      ensures templateTasks == old(templateTasks) && instanceTasks == old(instanceTasks)
      ensures showChecklist == old(showChecklist) && selectedInstance == old(selectedInstance)
      ensures checklistTasks == old(checklistTasks)
      ensures Reloaded(load, old(trainingInstances), old(trainingTemplates), old(teamProgress))
    {
      if actor.None? || actor.value.storeId == "" || !load.instancesOk {
        return;
      }
      var me := actor.value;
      ListOwn();
      if !load.templatesOk {
        return;
      }
      trainingTemplates := Filter(templates, ActiveIn(me.storeId));
      if IsLeader(actor) && load.teamOk {
        var members := Filter(profiles, Colleague(me.storeId, me.id));
        teamProgress := BuildTeamProgress(members, load.failedMembers);
      }
    }

    /** The actor's instances query: those with an existing template, newest first. */
    method ListOwn()
      requires Valid() && actor.Some?
      modifies this
      ensures Valid()
      ensures SortedBy(trainingInstances, NewestFirst)
      ensures multiset(trainingInstances) == multiset(OwnInstances(instances, templates, actor.value.id))
      ensures instances == old(instances) && templates == old(templates) && profiles == old(profiles)
      ensures templateTasks == old(templateTasks) && instanceTasks == old(instanceTasks)
      ensures trainingTemplates == old(trainingTemplates) && teamProgress == old(teamProgress)
      ensures showChecklist == old(showChecklist) && selectedInstance == old(selectedInstance)
      ensures checklistTasks == old(checklistTasks)
    {
      OwnListSorted(instances, templates, actor.value.id);
      trainingInstances := SortBy(OwnInstances(instances, templates, actor.value.id), NewestFirst);
    }

    /**
     * loadTrainingChecklist. For a listed instance it reads the template's
     * tasks in order and the instance's task rows, creating one pending
     * row per template task when there are none, and opens the checklist
     * on the merge. An unlisted instance or a failed step changes only
     * what was written before the failure.
     */
    method LoadTrainingChecklist(instanceId: string, step: ChecklistLoad)
      requires Valid()
      modifies this
      ensures Valid()
      ensures instances == old(instances) && templates == old(templates) && templateTasks == old(templateTasks)
      ensures trainingInstances == old(trainingInstances) && trainingTemplates == old(trainingTemplates)
      ensures teamProgress == old(teamProgress)
      ensures profiles == old(profiles)
      ensures ChecklistOpened(instanceId, step, FindLoaded(old(trainingInstances), instanceId), old(instanceTasks),
                              old(showChecklist), old(selectedInstance), old(checklistTasks))
    {
      var found := FindLoaded(trainingInstances, instanceId);
      if found.Some? && step != TemplateTasksFail && step != InstanceTasksFail {
        assert found.value.row.profileId == actor.value.id by {
          var k :| 0 <= k < |trainingInstances| && trainingInstances[k] == found.value;
        }
        OpenChecklist(found.value, instanceId, step);
      }
    }

    /**
     * The part of loadTrainingChecklist after both reads succeeded for a
     * listed instance of the actor: create the rows when there are none,
     * then open the merge.
     */
    method OpenChecklist(instance: LoadedInstance, instanceId: string, step: ChecklistLoad)
      requires Valid() && actor.Some? && instance.row.profileId == actor.value.id
      modifies this
      ensures Valid()
      ensures profiles == old(profiles)
      ensures instances == old(instances) && templates == old(templates) && templateTasks == old(templateTasks)
      ensures trainingInstances == old(trainingInstances) && trainingTemplates == old(trainingTemplates)
      ensures teamProgress == old(teamProgress)
      ensures var tts := TemplateTasksOf(old(templateTasks), instance.row.templateId);
              var existing := InstanceTasksOf(old(instanceTasks), instanceId);
              var opens := existing != [] || step == Loaded;
              && instanceTasks == (if existing == [] && step != InsertFail then old(instanceTasks) + NewTaskRows(instanceId, tts) else old(instanceTasks))
              && (opens ==>
                    && showChecklist && selectedInstance == Some(instance)
                    && checklistTasks == Merge(tts, InstanceTasksOf(instanceTasks, instanceId)))
              && (!opens ==>
                    showChecklist == old(showChecklist) && selectedInstance == old(selectedInstance)
                    && checklistTasks == old(checklistTasks))
    {
      var tts := TemplateTasksOf(templateTasks, instance.row.templateId);
      var existing := InstanceTasksOf(instanceTasks, instanceId);
      if existing != [] {
        checklistTasks := Merge(tts, existing);
        selectedInstance := Some(instance);
        showChecklist := true;
      } else if step != InsertFail {
        instanceTasks := instanceTasks + NewTaskRows(instanceId, tts);
        if step == Loaded {
          checklistTasks := Merge(tts, InstanceTasksOf(instanceTasks, instanceId));
          selectedInstance := Some(instance);
          showChecklist := true;
        }
      }
    }

    /**
     * handleStartTraining. A listed instance is set in progress with its
     * start time, then its checklist is opened; the checklist screen
     * gets the instance as listed before the write.
     */
    method StartTraining(instanceId: string, now: int, ok: bool, step: ChecklistLoad)
      requires Valid()
      modifies this
      ensures Valid()
      ensures profiles == old(profiles) && templates == old(templates) && templateTasks == old(templateTasks)
      ensures trainingInstances == old(trainingInstances) && trainingTemplates == old(trainingTemplates)
      ensures teamProgress == old(teamProgress)
      ensures FindLoaded(old(trainingInstances), instanceId).None? || !ok ==>
                && instances == old(instances) && instanceTasks == old(instanceTasks)
                && selectedInstance == old(selectedInstance) && showChecklist == old(showChecklist)
                && checklistTasks == old(checklistTasks)
      ensures FindLoaded(old(trainingInstances), instanceId).Some? && ok ==>
                && instances == PatchRows(old(instances), instanceId, StartPatch(now))
                && ChecklistOpened(instanceId, step, FindLoaded(old(trainingInstances), instanceId), old(instanceTasks),
                                   old(showChecklist), old(selectedInstance), old(checklistTasks))
    {
      if FindLoaded(trainingInstances, instanceId).None? {
        return;
      }
      if !ok {
        return;
      }
      instances := PatchRows(instances, instanceId, StartPatch(now));
      LoadTrainingChecklist(instanceId, step);
    }

    /**
     * handleRequestApproval. With an instance selected, it is set to
     * completed with its completion time, whatever its tasks, the
     * checklist closes and the data reloads.
     */
    method RequestApproval(now: int, ok: bool, load: DataLoad)
      requires Valid()
      modifies this
      ensures Valid()
      ensures profiles == old(profiles) && templates == old(templates) && templateTasks == old(templateTasks)
      ensures instanceTasks == old(instanceTasks) && checklistTasks == old(checklistTasks)
      ensures old(selectedInstance).None? || !ok ==>
                && instances == old(instances) && showChecklist == old(showChecklist)
                && trainingInstances == old(trainingInstances) && trainingTemplates == old(trainingTemplates)
                && teamProgress == old(teamProgress)
      ensures old(selectedInstance).Some? && ok ==>
                && instances == PatchRows(old(instances), old(selectedInstance).value.row.id, CompletePatch(now))
                && !showChecklist
                && Reloaded(load, old(trainingInstances), old(trainingTemplates), old(teamProgress))
      ensures selectedInstance == old(selectedInstance)
    {
      if selectedInstance.None? {
        return;
      }
      if !ok {
        return;
      }
      instances := PatchRows(instances, selectedInstance.value.row.id, CompletePatch(now));
      showChecklist := false;
      LoadTrainingData(load);
    }

    /**
     * handleApproveTraining. With an instance selected and a signed-in
     * actor, the instance is approved by the actor with the template's
     * certification flag, whatever its status. The selected instance
     * always comes from the actor's own list, so the approver is the
     * trainee.
     */
    method ApproveTraining(now: int, ok: bool, load: DataLoad)
      requires Valid()
      modifies this
      ensures Valid()
      ensures profiles == old(profiles) && templates == old(templates) && templateTasks == old(templateTasks)
      ensures instanceTasks == old(instanceTasks) && checklistTasks == old(checklistTasks)
      ensures old(selectedInstance).None? || actor.None? || !ok ==>
                && instances == old(instances) && showChecklist == old(showChecklist)
                && trainingInstances == old(trainingInstances) && trainingTemplates == old(trainingTemplates)
                && teamProgress == old(teamProgress)
      ensures old(selectedInstance).Some? && actor.Some? && ok ==>
                var sel := old(selectedInstance).value;
                && instances == PatchRows(old(instances), sel.row.id,
                                          ApprovePatch(now, actor.value.id, sel.template.certificationRequired))
                && sel.row.profileId == actor.value.id
                && !showChecklist
                && Reloaded(load, old(trainingInstances), old(trainingTemplates), old(teamProgress))
      ensures selectedInstance == old(selectedInstance)
    {
      if selectedInstance.None? || actor.None? {
        return;
      }
      if !ok {
        return;
      }
      var sel := selectedInstance.value;
      instances := PatchRows(instances, sel.row.id, ApprovePatch(now, actor.value.id, sel.template.certificationRequired));
      showChecklist := false;
      LoadTrainingData(load);
    }

    /** Appends one row to the store's instances; nothing listed changes. */
    method AppendInstance(row: InstanceRow)
      requires Valid()
      modifies this
      ensures Valid()
      ensures instances == old(instances) + [row]
      ensures trainingInstances == old(trainingInstances) && selectedInstance == old(selectedInstance)
      ensures trainingTemplates == old(trainingTemplates) && teamProgress == old(teamProgress)
      ensures showChecklist == old(showChecklist)
      ensures profiles == old(profiles) && templates == old(templates) && templateTasks == old(templateTasks)
      ensures instanceTasks == old(instanceTasks) && checklistTasks == old(checklistTasks)
    {
      instances := instances + [row];
    }

    /**
     * assignTemplate. One new row for the profile and template, assigned
     * now by the actor (none when signed out); the data reloads.
     */
    method AssignTemplate(templateId: string, profileId: string, newId: string, now: int, ok: bool, load: DataLoad)
      requires Valid()
      modifies this
      ensures Valid()
      ensures profiles == old(profiles) && templates == old(templates) && templateTasks == old(templateTasks)
      ensures instanceTasks == old(instanceTasks) && checklistTasks == old(checklistTasks)
      ensures !ok ==>
                && instances == old(instances) && trainingInstances == old(trainingInstances)
                && trainingTemplates == old(trainingTemplates) && teamProgress == old(teamProgress)
      ensures ok ==>
                && instances == old(instances) + [InstanceRow(newId, templateId, profileId, Card.Assigned, now,
                                                              if actor.Some? then Some(actor.value.id) else None,
                                                              None, None, None, None, false)]
                && Reloaded(load, old(trainingInstances), old(trainingTemplates), old(teamProgress))
      ensures showChecklist == old(showChecklist) && selectedInstance == old(selectedInstance)
    {
      if !ok {
        return;
      }
      var row := InstanceRow(newId, templateId, profileId, Card.Assigned, now,
                             if actor.Some? then Some(actor.value.id) else None, None, None, None, None, false);
      AppendInstance(row);
      LoadTrainingData(load);
    }
  }
}
