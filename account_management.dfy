/**
 * Account management: switching a profile's active flag or role, each
 * followed by an audit record, and who may do either.
 */
module AccountManagement {
  import opened Util

  datatype Member = Member(id: string, firstName: string, lastName: string, role: string, isActive: bool, storeId: string)

  /** The signed-in profile. */
  datatype Actor = Actor(id: string, role: string)

  /** The old or new values an audit record carries. */
  datatype Values = ActiveFlag(isActive: bool) | RoleValue(role: string)

  /** An audit_logs row as these actions insert it. */
  datatype AuditRecord = AuditRecord(
    tableName: string,
    recordId: string,
    action: string,
    oldValues: Values,
    newValues: Values,
    changedBy: Option<string>,
    reason: string)

  /** `canManageAccounts`: operators and managers. */
  predicate CanManageAccounts(actor: Option<Actor>) {
    actor.Some? && (actor.value.role == "operator" || actor.value.role == "manager")
  }

  /** The role select and active switch show on a member's row. */
  predicate ShowRowControls(actor: Option<Actor>, member: Member) {
    CanManageAccounts(actor) && member.id != actor.value.id
  }

  /** The roles the select offers. */
  function RoleOptions(actor: Option<Actor>): (r: seq<string>)
    ensures |r| >= 3 && r[..3] == ["team_member", "shift_leader", "manager"]
  {
    ["team_member", "shift_leader", "manager"] + (if actor.Some? && actor.value.role == "operator" then ["operator"] else [])
  }

  /**
   * Controls never show on the actor's own row, and the operator role is
   * offered to operators only; a manager still gets the controls on an
   * operator's row.
   */
  lemma ControlGating(actor: Option<Actor>, member: Member)
    ensures ShowRowControls(actor, member) ==> actor.Some? && member.id != actor.value.id
    ensures "operator" in RoleOptions(actor) <==> actor.Some? && actor.value.role == "operator"
    ensures actor.Some? && actor.value.role == "manager" && member.id != actor.value.id ==>
              ShowRowControls(actor, member) && "operator" !in RoleOptions(actor)
  {
    var base := ["team_member", "shift_leader", "manager"];
    if actor.Some? && actor.value.role == "operator" {
      assert RoleOptions(actor)[3] == "operator";
    } else {
      assert RoleOptions(actor) == base;
    }
  }

  /** The audit reason of a toggle: the given reason, or the default for the new value. */
  function ToggleReason(reason: string, nowActive: bool): (r: string)
    ensures reason != "" ==> r == reason
  {
    if reason != "" then reason
    else "Account " + (if nowActive then "activated" else "deactivated")
  }

  /** Without a given reason the record says which way the account went, and the two texts differ. */
  lemma DefaultReasons(nowActive: bool)
    ensures ToggleReason("", nowActive) == "Account activated" <==> nowActive
    ensures ToggleReason("", nowActive) == "Account deactivated" <==> !nowActive
  {
    assert "Account activated"[9] != "Account deactivated"[9];
  }

  function RoleReason(currentRole: string, newRole: string): (r: string)
    ensures |r| == |"Role changed from "| + |currentRole| + |" to "| + |newRole|
    ensures r[..|"Role changed from "|] == "Role changed from "
  {
    "Role changed from " + currentRole + " to " + newRole
  }

  /** The role reason names both roles, so different changes give different texts. */
  lemma RoleReasonNamesBoth(currentRole: string, newRole: string)
    ensures var r := RoleReason(currentRole, newRole);
            r[18..18 + |currentRole|] == currentRole && r[|r| - |newRole|..] == newRole
  {
  }

  function ToggleRecord(memberId: string, currentStatus: bool, actorId: Option<string>, reason: string): (r: AuditRecord)
    ensures r.oldValues.ActiveFlag? && r.newValues.ActiveFlag? && r.oldValues.isActive != r.newValues.isActive
    ensures r.recordId == memberId && r.oldValues.isActive == currentStatus
  {
    AuditRecord("profiles", memberId, "UPDATE", ActiveFlag(currentStatus), ActiveFlag(!currentStatus), actorId,
                ToggleReason(reason, !currentStatus))
  }

  function RoleRecord(memberId: string, newRole: string, currentRole: string, actorId: Option<string>): (r: AuditRecord)
    ensures r.oldValues == RoleValue(currentRole) && r.newValues == RoleValue(newRole)
    ensures r.recordId == memberId
  {
    AuditRecord("profiles", memberId, "UPDATE", RoleValue(currentRole), RoleValue(newRole), actorId,
                RoleReason(currentRole, newRole))
  }

  /** `update({is_active}).eq('id', memberId)`. */
  function SetActive(rows: seq<Member>, memberId: string, active: bool): (r: seq<Member>)
    ensures |r| == |rows|
    ensures forall i :: 0 <= i < |rows| ==> r[i] == if rows[i].id == memberId then rows[i].(isActive := active) else rows[i]
  {
    seq(|rows|, i requires 0 <= i < |rows| => if rows[i].id == memberId then rows[i].(isActive := active) else rows[i])
  }

  /** `update({role}).eq('id', memberId)`. */
  function SetRole(rows: seq<Member>, memberId: string, role: string): (r: seq<Member>)
    ensures |r| == |rows|
    ensures forall i :: 0 <= i < |rows| ==> r[i] == if rows[i].id == memberId then rows[i].(role := role) else rows[i]
  {
    seq(|rows|, i requires 0 <= i < |rows| => if rows[i].id == memberId then rows[i].(role := role) else rows[i])
  }

  /**
   * Two toggles of a member whose flag was read correctly each time give
   * back the original rows.
   */
  lemma ToggleTwiceRestores(rows: seq<Member>, memberId: string, current: bool)
    requires forall i :: 0 <= i < |rows| && rows[i].id == memberId ==> rows[i].isActive == current
    ensures SetActive(SetActive(rows, memberId, !current), memberId, current) == rows
  {
    var r := SetActive(SetActive(rows, memberId, !current), memberId, current);
    assert forall i :: 0 <= i < |rows| ==> r[i] == rows[i];
  }

  /** A role change followed by the change back restores the rows of a member whose role was read correctly. */
  lemma RoleChangeUndone(rows: seq<Member>, memberId: string, currentRole: string, newRole: string)
    requires forall i :: 0 <= i < |rows| && rows[i].id == memberId ==> rows[i].role == currentRole
    ensures SetRole(SetRole(rows, memberId, newRole), memberId, currentRole) == rows
  {
    var r := SetRole(SetRole(rows, memberId, newRole), memberId, currentRole);
    assert forall i :: 0 <= i < |rows| ==> r[i] == rows[i];
  }

  function InStore(storeId: string): Member -> bool {
    (m: Member) => m.storeId == storeId
  }

  /**
   * loadTeamMembers: the store's profiles, newest first. Profiles are
   * appended as they are created, so `created_at` descending is the
   * reverse of table order.
   */
  function StoreTeam(profiles: seq<Member>, storeId: string): (r: seq<Member>)
    ensures |r| == |Filter(profiles, InStore(storeId))|
    ensures forall i :: 0 <= i < |r| ==> r[i] == Filter(profiles, InStore(storeId))[|r| - 1 - i]
    ensures forall m :: m in r <==> m in profiles && m.storeId == storeId
  {
    var f := Filter(profiles, InStore(storeId));
    var r := seq(|f|, i requires 0 <= i < |f| => f[|f| - 1 - i]);
    forall m | m in f
      ensures m in r
    {
      var k :| 0 <= k < |f| && f[k] == m;
      assert r[|f| - 1 - k] == m;
    }
    r
  }

  /** At most the 50 most recent records, newest first (records are appended in time order). */
  function Newest(logs: seq<AuditRecord>): (r: seq<AuditRecord>)
    ensures |r| == if |logs| < 50 then |logs| else 50
    ensures forall i :: 0 <= i < |r| ==> r[i] == logs[|logs| - 1 - i]
  {
    var n := if |logs| < 50 then |logs| else 50;
    seq(n, i requires 0 <= i < n => logs[|logs| - 1 - i])
  }

  predicate OnProfiles(rec: AuditRecord) {
    rec.tableName == "profiles"
  }

  /** loadAuditLogs: the newest 50 records about the profiles table, whichever store they concern. */
  function LatestLogs(logs: seq<AuditRecord>): (r: seq<AuditRecord>)
    ensures |r| <= 50
    ensures forall i :: 0 <= i < |r| ==> r[i] in logs && r[i].tableName == "profiles"
    ensures var f := Filter(logs, OnProfiles);
            && |r| == (if |f| < 50 then |f| else 50)
            && forall i :: 0 <= i < |r| ==> r[i] == f[|f| - 1 - i]
  {
    Newest(Filter(logs, OnProfiles))
  }

  class Board {
    const actor: Option<Actor>
    const storeId: string
    var profiles: seq<Member>
    var auditLogs: seq<AuditRecord>
    var teamMembers: seq<Member>
    var shownLogs: seq<AuditRecord>

    constructor (actor: Option<Actor>, storeId: string, profiles: seq<Member>, auditLogs: seq<AuditRecord>)
      ensures this.actor == actor && this.storeId == storeId
      ensures this.profiles == profiles && this.auditLogs == auditLogs
      ensures teamMembers == [] && shownLogs == []
    {
      this.actor := actor;
      this.storeId := storeId;
      this.profiles := profiles;
      this.auditLogs := auditLogs;
      teamMembers := [];
      shownLogs := [];
    }

    /**
     * The reloads after a change: the store's members and the latest audit
     * records; without a store (an empty id) both loads return at once.
     */
    method Refresh()
      modifies this
      ensures storeId != "" ==> teamMembers == StoreTeam(profiles, storeId) && shownLogs == LatestLogs(auditLogs)
      ensures storeId == "" ==> teamMembers == old(teamMembers) && shownLogs == old(shownLogs)
      ensures profiles == old(profiles) && auditLogs == old(auditLogs)
    {
      if storeId == "" {
        return;
      }
      teamMembers := StoreTeam(profiles, storeId);
      shownLogs := LatestLogs(auditLogs);
    }

    /**
     * toggleAccountStatus: the member's flag becomes the negation of the
     * value the page shows; only after that write succeeds is the audit
     * record appended, and only after both does the page reload.
     */
    method ToggleAccountStatus(memberId: string, currentStatus: bool, reason: string, updateOk: bool, auditOk: bool)
      modifies this
      ensures !updateOk ==> profiles == old(profiles) && auditLogs == old(auditLogs)
      ensures updateOk ==> profiles == SetActive(old(profiles), memberId, !currentStatus)
      ensures updateOk && auditOk ==>
                auditLogs == old(auditLogs) + [ToggleRecord(memberId, currentStatus, if actor.Some? then Some(actor.value.id) else None, reason)]
                && (storeId != "" ==> teamMembers == StoreTeam(profiles, storeId) && shownLogs == LatestLogs(auditLogs))
                && (storeId == "" ==> teamMembers == old(teamMembers) && shownLogs == old(shownLogs))
      ensures !(updateOk && auditOk) ==> auditLogs == old(auditLogs) && shownLogs == old(shownLogs) && teamMembers == old(teamMembers)
    {
      if !updateOk {
        return;
      }
      profiles := SetActive(profiles, memberId, !currentStatus);
      if !auditOk {
        return;
      }
      auditLogs := auditLogs + [ToggleRecord(memberId, currentStatus, if actor.Some? then Some(actor.value.id) else None, reason)];
      Refresh();
    }

    /**
     * updateRole: the member takes the new role; only after that write
     * succeeds is the audit record of the change appended.
     */
    method UpdateRole(memberId: string, newRole: string, currentRole: string, updateOk: bool, auditOk: bool)
      modifies this
      ensures !updateOk ==> profiles == old(profiles) && auditLogs == old(auditLogs)
      ensures updateOk ==> profiles == SetRole(old(profiles), memberId, newRole)
      ensures updateOk && auditOk ==>
                auditLogs == old(auditLogs) + [RoleRecord(memberId, newRole, currentRole, if actor.Some? then Some(actor.value.id) else None)]
                && (storeId != "" ==> teamMembers == StoreTeam(profiles, storeId) && shownLogs == LatestLogs(auditLogs))
                && (storeId == "" ==> teamMembers == old(teamMembers) && shownLogs == old(shownLogs))
      ensures !(updateOk && auditOk) ==> auditLogs == old(auditLogs) && shownLogs == old(shownLogs) && teamMembers == old(teamMembers)
    {
      if !updateOk {
        return;
      }
      profiles := SetRole(profiles, memberId, newRole);
      if !auditOk {
        return;
      }
      auditLogs := auditLogs + [RoleRecord(memberId, newRole, currentRole, if actor.Some? then Some(actor.value.id) else None)];
      Refresh();
    }
  }

  /**
   * After a change is audited the newest shown record is that change, and
   * the records shown before it follow, one place further down.
   */
  lemma NewestShownFirst(logs: seq<AuditRecord>, rec: AuditRecord)
    requires rec.tableName == "profiles"
    ensures |LatestLogs(logs + [rec])| > 0 && LatestLogs(logs + [rec])[0] == rec
    ensures forall i :: 0 <= i < |LatestLogs(logs)| && i + 1 < 50 ==>
              i + 1 < |LatestLogs(logs + [rec])| && LatestLogs(logs + [rec])[i + 1] == LatestLogs(logs)[i]
  {
    FilterSnoc(logs, rec, OnProfiles);
    NewestSnoc(Filter(logs, OnProfiles), rec);
    assert LatestLogs(logs) == Newest(Filter(logs, OnProfiles));
    assert LatestLogs(logs + [rec]) == Newest(Filter(logs, OnProfiles) + [rec]);
  }

  /** Newest of a list with one more record: that record, then the old view shifted down. */
  lemma {:induction false} NewestSnoc(f: seq<AuditRecord>, rec: AuditRecord)
    ensures |Newest(f + [rec])| > 0 && Newest(f + [rec])[0] == rec
    ensures forall i :: 0 <= i < |Newest(f)| && i + 1 < 50 ==>
              i + 1 < |Newest(f + [rec])| && Newest(f + [rec])[i + 1] == Newest(f)[i]
  {
    var f' := f + [rec];
    assert Newest(f')[0] == f'[|f'| - 1] == rec;
    assert |Newest(f)| <= |f| && |Newest(f + [rec])| == if |f| + 1 < 50 then |f| + 1 else 50;
    forall i | 0 <= i < |Newest(f)| && i + 1 < 50
      ensures i + 1 < |Newest(f + [rec])| && Newest(f + [rec])[i + 1] == Newest(f)[i]
    {
      assert Newest(f')[i + 1] == f'[|f'| - 1 - (i + 1)] == f[|f| - 1 - i] == Newest(f)[i];
    }
  }

  /** Both audited actions write records about the profiles table, so both show in the list. */
  lemma ActionsAuditProfiles(memberId: string, currentStatus: bool, newRole: string, currentRole: string,
                             actorId: Option<string>, reason: string)
    ensures OnProfiles(ToggleRecord(memberId, currentStatus, actorId, reason))
    ensures OnProfiles(RoleRecord(memberId, newRole, currentRole, actorId))
  {
  }
}
