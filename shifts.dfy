/**
 * The shifts page: shift rows, the assignment rows that put staff on a
 * shift, the normalisation applied to fetched assignments, drop routing,
 * and the insert / update / delete of assignment rows.
 */
module Shifts {
  import opened Util

  /** A shift_assignments row as the backend stores it; `secondaryRoles` may be null. */
  datatype AssignmentRow = AssignmentRow(
    id: string,
    shiftId: string,
    profileId: string,
    primaryRole: string,
    secondaryRoles: Option<seq<string>>,
    bbqBuddyId: Option<string>,
    isScheduled: bool)

  /** An assignment as the page holds it after fetching: the secondary roles are always a list. */
  datatype Assignment = Assignment(
    id: string,
    shiftId: string,
    profileId: string,
    primaryRole: string,
    secondaryRoles: seq<string>,
    bbqBuddyId: Option<string>,
    isScheduled: bool)

  /** The create-shift form. */
  datatype ShiftForm = ShiftForm(
    shiftType: string,
    startTime: string,
    endTime: string,
    notes: string,
    dailySpecials: string,
    cateringNotes: string)

  datatype ShiftRow = ShiftRow(id: string, storeId: string, date: string, form: ShiftForm)

  /** A fetched shift with its joined assignment rows (absent when the join returned none). */
  datatype FetchedShift = FetchedShift(row: ShiftRow, assignments: Option<seq<AssignmentRow>>)

  datatype Shift = Shift(row: ShiftRow, assignments: seq<Assignment>)

  const EmptyForm: ShiftForm := ShiftForm("", "", "", "", "", "")
  const DefaultRole: string := "front_of_house"
  const ShiftPrefix: string := "shift-"
  const StaffPrefix: string := "staff-"

  // ---------------------------------------------------------------------
  // Normalisation of fetched rows
  // ---------------------------------------------------------------------

  function NormalizeAssignment(a: AssignmentRow): Assignment {
    Assignment(a.id, a.shiftId, a.profileId, a.primaryRole,
               if a.secondaryRoles.Some? then a.secondaryRoles.value else [],
               a.bbqBuddyId, a.isScheduled)
  }

  function NormalizeAssignments(rows: seq<AssignmentRow>): (r: seq<Assignment>)
    ensures |r| == |rows|
    ensures forall i :: 0 <= i < |r| ==> r[i] == NormalizeAssignment(rows[i])
  {
    seq(|rows|, i requires 0 <= i < |rows| => NormalizeAssignment(rows[i]))
  }

  /** The fetch mapping: a missing assignment list becomes empty and every assignment is normalised. */
  function NormalizeShifts(fetched: seq<FetchedShift>): (r: seq<Shift>)
    ensures |r| == |fetched|
    ensures forall i :: 0 <= i < |r| ==> r[i].row == fetched[i].row
    ensures forall i :: 0 <= i < |r| && fetched[i].assignments.None? ==> r[i].assignments == []
    ensures forall i :: 0 <= i < |r| && fetched[i].assignments.Some? ==>
              r[i].assignments == NormalizeAssignments(fetched[i].assignments.value)
  {
    seq(|fetched|, i requires 0 <= i < |fetched| =>
      Shift(fetched[i].row,
            if fetched[i].assignments.Some? then NormalizeAssignments(fetched[i].assignments.value) else []))
  }

  /** The stored row a normalised assignment stands for, with the null list written back. */
  function Denormalize(a: Assignment, hadRoles: bool): AssignmentRow {
    AssignmentRow(a.id, a.shiftId, a.profileId, a.primaryRole,
                  if hadRoles then Some(a.secondaryRoles) else None, a.bbqBuddyId, a.isScheduled)
  }

  /**
   * Normalisation only replaces a null secondary-role list by the empty
   * list: every other field is kept, and a present list is kept as is.
   */
  lemma NormalizeKeepsFields(a: AssignmentRow)
    ensures Denormalize(NormalizeAssignment(a), a.secondaryRoles.Some?) == a
    ensures a.secondaryRoles.None? ==> NormalizeAssignment(a).secondaryRoles == []
  {
  }

  // ---------------------------------------------------------------------
  // Drop routing
  // ---------------------------------------------------------------------

  datatype Location = Location(droppableId: string, index: int)
  datatype DropResult = DropResult(source: Location, destination: Option<Location>, draggableId: string)

  /** The insert a drop asks for: a shift id and a staff id. */
  datatype Placement = Placement(shiftId: string, staffId: string)

  /**
   * onDragEnd of the shifts page: no destination or the same spot does
   * nothing; any drop on a "shift-" container places the dragged id (its
   * first "staff-" removed) on that shift, wherever the drag started.
   */
  function RouteDrop(drop: DropResult): (r: Option<Placement>)
    ensures drop.destination.None? ==> r.None?
    ensures drop.destination.Some? && drop.destination.value == drop.source ==> r.None?
    ensures drop.destination.Some? && drop.destination.value != drop.source ==>
              (r.Some? <==> StartsWith(drop.destination.value.droppableId, ShiftPrefix))
    ensures r.Some? ==> r.value.staffId == ReplaceFirst(drop.draggableId, StaffPrefix, "")
  {
    if drop.destination.None? then None
    else
      var dst := drop.destination.value;
      if dst.droppableId == drop.source.droppableId && dst.index == drop.source.index then None
      else if StartsWith(dst.droppableId, ShiftPrefix) then
        Some(Placement(ReplaceFirst(dst.droppableId, ShiftPrefix, ""), ReplaceFirst(drop.draggableId, StaffPrefix, "")))
      else None
  }

  /** Dragging card "staff-" + P onto container "shift-" + S places P on S, from any source container. */
  lemma RouteToShift(source: Location, shiftId: string, index: int, staffId: string)
    requires source != Location(ShiftPrefix + shiftId, index)
    ensures RouteDrop(DropResult(source, Some(Location(ShiftPrefix + shiftId, index)), StaffPrefix + staffId))
            == Some(Placement(shiftId, staffId))
  {
    var d, c := ShiftPrefix + shiftId, StaffPrefix + staffId;
    assert d[..|ShiftPrefix|] == ShiftPrefix;
    assert c[..|StaffPrefix|] == StaffPrefix;
    ReplacePrefix(d, ShiftPrefix);
    ReplacePrefix(c, StaffPrefix);
    assert d[|ShiftPrefix|..] == shiftId;
    assert c[|StaffPrefix|..] == staffId;
  }

  // ---------------------------------------------------------------------
  // The assignment collection
  // ---------------------------------------------------------------------

  /** The row assignStaffToShift inserts; the other columns take the backend's defaults. */
  function NewAssignment(id: string, shiftId: string, staffId: string, scheduledDefault: bool): AssignmentRow {
    AssignmentRow(id, shiftId, staffId, DefaultRole, None, None, scheduledDefault)
  }

  predicate Places(a: AssignmentRow, shiftId: string, staffId: string) {
    a.shiftId == shiftId && a.profileId == staffId
  }

  function Placements(rows: seq<AssignmentRow>, shiftId: string, staffId: string): nat {
    Count(rows, (a: AssignmentRow) => Places(a, shiftId, staffId))
  }

  function SetRole(rows: seq<AssignmentRow>, id: string, role: string): (r: seq<AssignmentRow>)
    ensures |r| == |rows|
    ensures forall i :: 0 <= i < |r| ==> r[i] == if rows[i].id == id then rows[i].(primaryRole := role) else rows[i]
  {
    seq(|rows|, i requires 0 <= i < |rows| => if rows[i].id == id then rows[i].(primaryRole := role) else rows[i])
  }

  function Remove(rows: seq<AssignmentRow>, id: string): seq<AssignmentRow> {
    Filter(rows, (a: AssignmentRow) => a.id != id)
  }

  /**
   * Inserts are not deduplicated: every accepted insert of the same staff
   * on the same shift adds one more row for that pair.
   */
  lemma RepeatedInsertsAccumulate(rows: seq<AssignmentRow>, id1: string, id2: string, shiftId: string,
                                  staffId: string, scheduledDefault: bool)
    ensures var twice := rows + [NewAssignment(id1, shiftId, staffId, scheduledDefault)]
                              + [NewAssignment(id2, shiftId, staffId, scheduledDefault)];
            Placements(twice, shiftId, staffId) == Placements(rows, shiftId, staffId) + 2
  {
    var p := (a: AssignmentRow) => Places(a, shiftId, staffId);
    var a1, a2 := NewAssignment(id1, shiftId, staffId, scheduledDefault), NewAssignment(id2, shiftId, staffId, scheduledDefault);
    CountAppend(rows, [a1], p);
    CountAppend(rows + [a1], [a2], p);
    assert Count([a1], p) == 1 by { assert [a1][1..] == []; }
    assert Count([a2], p) == 1 by { assert [a2][1..] == []; }
  }

  /** Updating a role twice is updating it once, and the rows' ids, shifts and staff are untouched. */
  lemma SetRoleIdempotent(rows: seq<AssignmentRow>, id: string, role: string)
    ensures SetRole(SetRole(rows, id, role), id, role) == SetRole(rows, id, role)
    ensures forall i :: 0 <= i < |rows| ==>
              SetRole(rows, id, role)[i].(primaryRole := rows[i].primaryRole) == rows[i]
  {
  }

  lemma {:induction false} RemoveSplits(rows: seq<AssignmentRow>, id: string)
    ensures |Remove(rows, id)| + Count(rows, (a: AssignmentRow) => a.id == id) == |rows|
  {
    if rows != [] {
      RemoveSplits(rows[1..], id);
    }
  }

  /**
   * Deleting by id removes every row with that id and no other: the
   * remaining rows keep their order and the list shrinks by the number of
   * rows that had the id.
   */
  lemma RemoveExactly(rows: seq<AssignmentRow>, id: string)
    ensures var r := Remove(rows, id);
      && (forall i :: 0 <= i < |r| ==> r[i].id != id)
      && (forall i :: 0 <= i < |rows| && rows[i].id != id ==> rows[i] in r)
      && IsSubsequence(r, rows)
      && |r| == |rows| - Count(rows, (a: AssignmentRow) => a.id == id)
  {
    FilterIsSubsequence(rows, (a: AssignmentRow) => a.id != id);
    RemoveSplits(rows, id);
  }

  /** The page's backend tables and the create-shift dialog. */
  class ShiftBoard {
    var shifts: seq<ShiftRow>
    var assignments: seq<AssignmentRow>
    var newShift: ShiftForm
    var showCreateShift: bool
    /** The value the backend gives is_scheduled when an insert leaves it out. */
    const scheduledDefault: bool

    constructor (scheduledDefault: bool)
      ensures shifts == [] && assignments == [] && newShift == EmptyForm && !showCreateShift
      ensures this.scheduledDefault == scheduledDefault
    {
      this.scheduledDefault := scheduledDefault;
      shifts := [];
      assignments := [];
      newShift := EmptyForm;
      showCreateShift := false;
    }

    /**
     * createShift: nothing happens without a store id or a shift type; on
     * success the shift is stored with the form's fields, the dialog closes
     * and the form is emptied; a failed insert changes nothing.
     */
    method CreateShift(storeId: Option<string>, date: string, id: string, ok: bool)
      modifies this
      ensures storeId.None? || storeId.value == "" || old(newShift).shiftType == "" || !ok ==>
                shifts == old(shifts) && newShift == old(newShift) && showCreateShift == old(showCreateShift)
      ensures storeId.Some? && storeId.value != "" && old(newShift).shiftType != "" && ok ==>
                shifts == old(shifts) + [ShiftRow(id, storeId.value, date, old(newShift))]
                && newShift == EmptyForm && !showCreateShift
      ensures assignments == old(assignments)
    {
      if storeId.None? || storeId.value == "" || newShift.shiftType == "" {
        return;
      }
      if ok {
        shifts := shifts + [ShiftRow(id, storeId.value, date, newShift)];
        showCreateShift := false;
        newShift := EmptyForm;
      }
    }

    /** assignStaffToShift: on success one row is appended, with the default role, whatever rows exist. */
    method AssignStaffToShift(shiftId: string, staffId: string, id: string, ok: bool)
      modifies this
      ensures ok ==> assignments == old(assignments) + [NewAssignment(id, shiftId, staffId, scheduledDefault)]
      ensures !ok ==> assignments == old(assignments)
      ensures shifts == old(shifts) && newShift == old(newShift) && showCreateShift == old(showCreateShift)
    {
      if ok {
        assignments := assignments + [NewAssignment(id, shiftId, staffId, scheduledDefault)];
      }
    }

    /** onDragEnd: a routed drop inserts its placement; every other drop changes nothing. */
    method OnDragEnd(drop: DropResult, id: string, ok: bool)
      modifies this
      ensures RouteDrop(drop).None? || !ok ==> assignments == old(assignments)
      ensures RouteDrop(drop).Some? && ok ==>
                assignments == old(assignments)
                  + [NewAssignment(id, RouteDrop(drop).value.shiftId, RouteDrop(drop).value.staffId, scheduledDefault)]
      ensures shifts == old(shifts) && newShift == old(newShift) && showCreateShift == old(showCreateShift)
    {
      var route := RouteDrop(drop);
      if route.Some? {
        AssignStaffToShift(route.value.shiftId, route.value.staffId, id, ok);
      }
    }

    /** updateAssignmentRole: on success the rows with that id get the new primary role, nothing else changes. */
    method UpdateAssignmentRole(assignmentId: string, newRole: string, ok: bool)
      modifies this
      ensures ok ==> assignments == SetRole(old(assignments), assignmentId, newRole)
      ensures !ok ==> assignments == old(assignments)
      ensures shifts == old(shifts) && newShift == old(newShift) && showCreateShift == old(showCreateShift)
    {
      if ok {
        assignments := SetRole(assignments, assignmentId, newRole);
      }
    }

    /** removeAssignment: on success the rows with that id are deleted. */
    method RemoveAssignment(assignmentId: string, ok: bool)
      modifies this
      ensures ok ==> assignments == Remove(old(assignments), assignmentId)
      ensures !ok ==> assignments == old(assignments)
      ensures shifts == old(shifts) && newShift == old(newShift) && showCreateShift == old(showCreateShift)
    {
      if ok {
        assignments := Remove(assignments, assignmentId);
      }
    }
  }
}
