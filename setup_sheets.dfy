/**
 * The setup sheet: per shift, a list of positions (each with at most one
 * occupant) and a pool of available staff. Dragging a card from the pool
 * onto a position assigns it; dragging an occupant back onto the pool
 * unassigns it. The page rebuilds the whole sheet value on every drop, so
 * the model is a function from sheet to sheet.
 */
module SetupSheets {
  import opened Util

  datatype StaffMember = StaffMember(id: string, name: string, role: string, availability: seq<string>)

  datatype Position = Position(
    id: string,
    name: string,
    station: string,
    requiredRole: Option<string>,
    assignedStaff: Option<StaffMember>,
    notes: Option<string>)

  datatype ShiftAssignment = ShiftAssignment(
    id: string,
    shiftType: string,
    startTime: string,
    endTime: string,
    positions: seq<Position>,
    availableStaff: seq<StaffMember>)

  datatype Weather = Weather(temperature: int, condition: string, humidity: int)

  datatype CateringStatus = Pending | InPrep | Ready | Delivered

  datatype CateringOrder = CateringOrder(
    id: string,
    customerName: string,
    orderSummary: string,
    deliveryTime: string,
    prepRequirements: string,
    status: CateringStatus)

  datatype Sheet = Sheet(
    id: string,
    date: string,
    weather: Weather,
    expectedFootTraffic: string,
    teamNotes: string,
    shiftAssignments: seq<ShiftAssignment>,
    cateringOrders: seq<CateringOrder>)

  /** One end of a drag: the container's droppable id and the index in it. */
  datatype Location = Location(droppableId: string, index: int)

  /** What the drag-and-drop library reports when a drag ends. */
  datatype DropResult = DropResult(source: Location, destination: Option<Location>, draggableId: string)

  /** The page's state: the loaded sheet (if any), the selected shift tab and the notes editor. */
  datatype View = View(sheet: Option<Sheet>, selectedShift: string, editingNotes: bool, tempNotes: string)

  const PoolId: string := "available-staff"
  const PositionPrefix: string := "position-"

  // ---------------------------------------------------------------------
  // Array.prototype.find, by id
  // ---------------------------------------------------------------------

  function FirstShift(shifts: seq<ShiftAssignment>, id: string): (r: Option<nat>)
    ensures r.Some? ==> r.value < |shifts| && shifts[r.value].id == id
    ensures r.Some? ==> forall j :: 0 <= j < r.value ==> shifts[j].id != id
    ensures r.None? ==> forall j :: 0 <= j < |shifts| ==> shifts[j].id != id
  {
    if shifts == [] then None
    else if shifts[0].id == id then Some(0)
    else match FirstShift(shifts[1..], id)
      case None => None
      case Some(k) => Some(k + 1)
  }

  function FirstStaff(pool: seq<StaffMember>, id: string): (r: Option<nat>)
    ensures r.Some? ==> r.value < |pool| && pool[r.value].id == id
    ensures r.Some? ==> forall j :: 0 <= j < r.value ==> pool[j].id != id
    ensures r.None? ==> forall j :: 0 <= j < |pool| ==> pool[j].id != id
  {
    if pool == [] then None
    else if pool[0].id == id then Some(0)
    else match FirstStaff(pool[1..], id)
      case None => None
      case Some(k) => Some(k + 1)
  }

  function FirstPosition(positions: seq<Position>, id: string): (r: Option<nat>)
    ensures r.Some? ==> r.value < |positions| && positions[r.value].id == id
    ensures r.Some? ==> forall j :: 0 <= j < r.value ==> positions[j].id != id
    ensures r.None? ==> forall j :: 0 <= j < |positions| ==> positions[j].id != id
  {
    if positions == [] then None
    else if positions[0].id == id then Some(0)
    else match FirstPosition(positions[1..], id)
      case None => None
      case Some(k) => Some(k + 1)
  }

  // ---------------------------------------------------------------------
  // The two moves, as the page writes them with map / filter / spread
  // ---------------------------------------------------------------------

  /** Every position with id `positionId` gets `staff` as occupant. */
  function Occupy(positions: seq<Position>, positionId: string, staff: StaffMember): (r: seq<Position>)
    ensures |r| == |positions|
    ensures forall i :: 0 <= i < |r| ==>
      r[i] == if positions[i].id == positionId then positions[i].(assignedStaff := Some(staff)) else positions[i]
  {
    if positions == [] then []
    else
      var p := positions[0];
      [if p.id == positionId then p.(assignedStaff := Some(staff)) else p] + Occupy(positions[1..], positionId, staff)
  }

  /** Every position with id `positionId` loses its occupant. */
  function Vacate(positions: seq<Position>, positionId: string): (r: seq<Position>)
    ensures |r| == |positions|
    ensures forall i :: 0 <= i < |r| ==>
      r[i] == if positions[i].id == positionId then positions[i].(assignedStaff := None) else positions[i]
  {
    if positions == [] then []
    else
      var p := positions[0];
      [if p.id == positionId then p.(assignedStaff := None) else p] + Vacate(positions[1..], positionId)
  }

  function WithoutStaff(pool: seq<StaffMember>, staffId: string): seq<StaffMember> {
    Filter(pool, (s: StaffMember) => s.id != staffId)
  }

  /** The assign move applied to every shift whose id is the selected one. */
  function AssignInShifts(shifts: seq<ShiftAssignment>, selected: string, positionId: string,
                          staff: StaffMember, staffId: string): seq<ShiftAssignment>
  {
    seq(|shifts|, i requires 0 <= i < |shifts| =>
      if shifts[i].id == selected then
        shifts[i].(positions := Occupy(shifts[i].positions, positionId, staff),
                   availableStaff := WithoutStaff(shifts[i].availableStaff, staffId))
      else shifts[i])
  }

  /** The unassign move applied to every shift whose id is the selected one. */
  function UnassignInShifts(shifts: seq<ShiftAssignment>, selected: string, positionId: string,
                            occupant: StaffMember): seq<ShiftAssignment>
  {
    seq(|shifts|, i requires 0 <= i < |shifts| =>
      if shifts[i].id == selected then
        shifts[i].(positions := Vacate(shifts[i].positions, positionId),
                   availableStaff := shifts[i].availableStaff + [occupant])
      else shifts[i])
  }

  predicate IsAssignDrop(drop: DropResult) {
    drop.destination.Some? && drop.source.droppableId == PoolId
    && StartsWith(drop.destination.value.droppableId, PositionPrefix)
  }

  predicate IsUnassignDrop(drop: DropResult) {
    drop.destination.Some? && !IsAssignDrop(drop)
    && StartsWith(drop.source.droppableId, PositionPrefix) && drop.destination.value.droppableId == PoolId
  }

  /**
   * onDragEnd. A drop with no destination, with no sheet loaded, or while
   * the selected shift is missing changes nothing; so does any drop that is
   * neither pool -> position nor position -> pool. Only the shift list
   * changes, and within it only the shifts carrying the selected id.
   */
  function OnDragEnd(sheet: Option<Sheet>, selected: string, drop: DropResult): (r: Option<Sheet>)
    ensures r.Some? <==> sheet.Some?
    ensures drop.destination.None? || sheet.None? ==> r == sheet
    ensures sheet.Some? && FirstShift(sheet.value.shiftAssignments, selected).None? ==> r == sheet
    ensures !IsAssignDrop(drop) && !IsUnassignDrop(drop) ==> r == sheet
    ensures r.Some? ==> r.value == sheet.value.(shiftAssignments := r.value.shiftAssignments)
    ensures r.Some? ==> |r.value.shiftAssignments| == |sheet.value.shiftAssignments|
    ensures r.Some? ==> forall i :: 0 <= i < |r.value.shiftAssignments| ==>
              r.value.shiftAssignments[i].id == sheet.value.shiftAssignments[i].id
    ensures r.Some? ==> forall i :: 0 <= i < |r.value.shiftAssignments| && sheet.value.shiftAssignments[i].id != selected ==>
              r.value.shiftAssignments[i] == sheet.value.shiftAssignments[i]
  {
    if drop.destination.None? || sheet.None? then sheet
    else
      var shifts := sheet.value.shiftAssignments;
      match FirstShift(shifts, selected)
      case None => sheet
      case Some(k) =>
        var current := shifts[k];
        var src := drop.source.droppableId;
        var dst := drop.destination.value.droppableId;
        if src == PoolId && StartsWith(dst, PositionPrefix) then
          var positionId := ReplaceFirst(dst, PositionPrefix, "");
          match FirstStaff(current.availableStaff, drop.draggableId)
          case None => sheet
          case Some(j) =>
            Some(sheet.value.(shiftAssignments :=
              AssignInShifts(shifts, selected, positionId, current.availableStaff[j], drop.draggableId)))
        else if StartsWith(src, PositionPrefix) && dst == PoolId then
          var positionId := ReplaceFirst(src, PositionPrefix, "");
          match FirstPosition(current.positions, positionId)
          case None => sheet
          case Some(j) =>
            if current.positions[j].assignedStaff.None? then sheet
            else
              Some(sheet.value.(shiftAssignments :=
                UnassignInShifts(shifts, selected, positionId, current.positions[j].assignedStaff.value)))
        else sheet
  }

  /** updateTeamNotes: with a sheet loaded, the edited text replaces the team notes and the editor closes. */
  function UpdateTeamNotes(v: View): (r: View)
    ensures v.sheet.None? ==> r == v
    ensures v.sheet.Some? ==> r.sheet == Some(v.sheet.value.(teamNotes := v.tempNotes))
    ensures v.sheet.Some? ==> !r.editingNotes && r.selectedShift == v.selectedShift && r.tempNotes == v.tempNotes
  {
    if v.sheet.None? then v
    else v.(sheet := Some(v.sheet.value.(teamNotes := v.tempNotes)), editingNotes := false)
  }

  // ---------------------------------------------------------------------
  // What a drop does to the selected shift
  // ---------------------------------------------------------------------

  /** The drop that drags pool member `staffId` onto position `positionId`. */
  function AssignDrop(staffId: string, positionId: string): DropResult {
    DropResult(Location(PoolId, 0), Some(Location(PositionPrefix + positionId, 0)), staffId)
  }

  /** The drop that drags the occupant of position `positionId` back onto the pool. */
  function UnassignDrop(staffId: string, positionId: string): DropResult {
    DropResult(Location(PositionPrefix + positionId, 0), Some(Location(PoolId, 0)), staffId)
  }

  lemma PrefixedId(positionId: string)
    ensures StartsWith(PositionPrefix + positionId, PositionPrefix)
    ensures ReplaceFirst(PositionPrefix + positionId, PositionPrefix, "") == positionId
  {
    var s := PositionPrefix + positionId;
    assert s[..|PositionPrefix|] == PositionPrefix;
    ReplacePrefix(s, PositionPrefix);
    assert s[|PositionPrefix|..] == positionId;
  }

  /**
   * Assigning: the member found in the selected shift's pool becomes the
   * occupant of every position with the target id (whoever was there
   * before), every pool entry with the dragged id leaves the pool, and the
   * other positions are untouched.
   */
  lemma {:induction false} AssignMoves(sheet: Sheet, selected: string, staffId: string, positionId: string)
    requires FirstShift(sheet.shiftAssignments, selected).Some?
    ensures var k := FirstShift(sheet.shiftAssignments, selected).value;
            var before := sheet.shiftAssignments[k];
            var r := OnDragEnd(Some(sheet), selected, AssignDrop(staffId, positionId));
            match FirstStaff(before.availableStaff, staffId)
            case None => r == Some(sheet)
            case Some(j) =>
              var after := r.value.shiftAssignments[k];
              && after.availableStaff == Filter(before.availableStaff, (s: StaffMember) => s.id != staffId)
              && |after.positions| == |before.positions|
              && (forall i :: 0 <= i < |before.positions| && before.positions[i].id == positionId ==>
                    after.positions[i] == before.positions[i].(assignedStaff := Some(before.availableStaff[j])))
              && (forall i :: 0 <= i < |before.positions| && before.positions[i].id != positionId ==>
                    after.positions[i] == before.positions[i])
  {
    PrefixedId(positionId);
  }

  /**
   * Unassigning: only when the first position with that id has an
   * occupant; then every position with that id is cleared and the occupant
   * is appended to the end of the pool.
   */
  lemma {:induction false} UnassignMoves(sheet: Sheet, selected: string, staffId: string, positionId: string)
    requires FirstShift(sheet.shiftAssignments, selected).Some?
    ensures var k := FirstShift(sheet.shiftAssignments, selected).value;
            var before := sheet.shiftAssignments[k];
            var r := OnDragEnd(Some(sheet), selected, UnassignDrop(staffId, positionId));
            match FirstPosition(before.positions, positionId)
            case None => r == Some(sheet)
            case Some(j) =>
              if before.positions[j].assignedStaff.None? then r == Some(sheet)
              else
                var after := r.value.shiftAssignments[k];
                && after.availableStaff == before.availableStaff + [before.positions[j].assignedStaff.value]
                && after.positions == Vacate(before.positions, positionId)
  {
    PrefixedId(positionId);
    assert (PositionPrefix + positionId)[0] == 'p';
    assert PoolId[0] == 'a';
  }

  // ---------------------------------------------------------------------
  // Conservation of staff
  // ---------------------------------------------------------------------

  function OccupantOf(p: Position): multiset<StaffMember> {
    if p.assignedStaff.Some? then multiset{p.assignedStaff.value} else multiset{}
  }

  /** The occupants of a list of positions. */
  function Occupants(positions: seq<Position>): multiset<StaffMember> {
    if positions == [] then multiset{} else OccupantOf(positions[0]) + Occupants(positions[1..])
  }

  /** Everyone a shift holds: its pool and its positions' occupants. */
  function StaffOf(shift: ShiftAssignment): multiset<StaffMember> {
    multiset(shift.availableStaff) + Occupants(shift.positions)
  }

  function CountPositions(positions: seq<Position>, id: string): nat {
    Count(positions, (p: Position) => p.id == id)
  }

  function CountStaff(pool: seq<StaffMember>, id: string): nat {
    Count(pool, (s: StaffMember) => s.id == id)
  }

  lemma {:induction false} OccupyOne(positions: seq<Position>, positionId: string, staff: StaffMember, j: nat)
    requires CountPositions(positions, positionId) == 1
    requires j < |positions| && positions[j].id == positionId
    ensures Occupants(Occupy(positions, positionId, staff)) + OccupantOf(positions[j])
            == Occupants(positions) + multiset{staff}
  {
    var rest := positions[1..];
    var o := Occupy(positions, positionId, staff);
    assert o[1..] == Occupy(rest, positionId, staff);
    assert Occupants(o) == OccupantOf(o[0]) + Occupants(Occupy(rest, positionId, staff));
    assert Occupants(positions) == OccupantOf(positions[0]) + Occupants(rest);
    if positions[0].id == positionId {
      assert CountPositions(rest, positionId) == 0;
      assert j == 0 by {
        assert forall i :: 0 < i < |positions| ==> positions[i] == rest[i - 1];
      }
      OccupyNone(rest, positionId, staff);
      assert OccupantOf(o[0]) == multiset{staff};
      assert Occupants(o) + OccupantOf(positions[j]) == Occupants(positions) + multiset{staff};
    } else {
      assert positions[j] == rest[j - 1];
      OccupyOne(rest, positionId, staff, j - 1);
      assert o[0] == positions[0];
      var head, tail, tail', moved := OccupantOf(positions[0]), Occupants(rest),
        Occupants(Occupy(rest, positionId, staff)), OccupantOf(positions[j]);
      assert Occupants(o) == head + tail';
      assert Occupants(positions) == head + tail;
      Regroup(head, tail', moved, tail, multiset{staff});
    }
  }

  lemma Regroup<T>(h: multiset<T>, t2: multiset<T>, m: multiset<T>, t: multiset<T>, s: multiset<T>)
    requires t2 + m == t + s
    ensures (h + t2) + m == (h + t) + s
  {
    assert (h + t2) + m == h + (t2 + m);
    assert (h + t) + s == h + (t + s);
  }

  lemma {:induction false} OccupyNone(positions: seq<Position>, positionId: string, staff: StaffMember)
    requires CountPositions(positions, positionId) == 0
    ensures Occupy(positions, positionId, staff) == positions
  {
    if positions != [] {
      OccupyNone(positions[1..], positionId, staff);
    }
  }

  lemma {:induction false} VacateOne(positions: seq<Position>, positionId: string, j: nat)
    requires CountPositions(positions, positionId) == 1
    requires j < |positions| && positions[j].id == positionId
    ensures Occupants(Vacate(positions, positionId)) + OccupantOf(positions[j]) == Occupants(positions)
  {
    var rest := positions[1..];
    assert forall i :: 0 < i < |positions| ==> positions[i] == rest[i - 1];
    if positions[0].id == positionId {
      assert CountPositions(rest, positionId) == 0;
      assert j == 0;
      VacateNone(rest, positionId);
    } else {
      VacateOne(rest, positionId, j - 1);
    }
  }

  lemma {:induction false} VacateNone(positions: seq<Position>, positionId: string)
    requires CountPositions(positions, positionId) == 0
    ensures Vacate(positions, positionId) == positions
  {
    if positions != [] {
      VacateNone(positions[1..], positionId);
    }
  }

  lemma {:induction false} RemoveOne(pool: seq<StaffMember>, staffId: string, j: nat)
    requires CountStaff(pool, staffId) == 1
    requires j < |pool| && pool[j].id == staffId
    ensures multiset(WithoutStaff(pool, staffId)) + multiset{pool[j]} == multiset(pool)
  {
    var rest := pool[1..];
    assert pool == [pool[0]] + rest;
    if j > 0 {
      assert rest[j - 1] == pool[j];
    }
    if pool[0].id == staffId {
      assert CountStaff(rest, staffId) == 0;
      assert j == 0;
      NoneRemoved(rest, staffId);
      assert WithoutStaff(pool, staffId) == WithoutStaff(rest, staffId);
    } else {
      RemoveOne(rest, staffId, j - 1);
      assert WithoutStaff(pool, staffId) == [pool[0]] + WithoutStaff(rest, staffId);
    }
  }

  lemma {:induction false} NoneRemoved(pool: seq<StaffMember>, staffId: string)
    requires CountStaff(pool, staffId) == 0
    ensures WithoutStaff(pool, staffId) == pool
  {
    if pool != [] {
      assert pool[0].id != staffId;
      NoneRemoved(pool[1..], staffId);
      assert pool == [pool[0]] + pool[1..];
    }
  }

  /**
   * Conservation when assigning: if the target position occurs once in the
   * selected shift and the dragged id once in its pool, the shift holds the
   * same staff afterwards less whoever occupied the position before. In
   * particular staff is conserved exactly when that position was empty; an
   * occupant that is overwritten is not returned to the pool.
   */
  lemma {:induction false} AssignConserves(sheet: Sheet, selected: string, staffId: string, positionId: string, x: nat)
    requires FirstShift(sheet.shiftAssignments, selected).Some?
    requires var before := sheet.shiftAssignments[FirstShift(sheet.shiftAssignments, selected).value];
             && CountPositions(before.positions, positionId) == 1
             && x < |before.positions| && before.positions[x].id == positionId
             && CountStaff(before.availableStaff, staffId) == 1
    ensures var k := FirstShift(sheet.shiftAssignments, selected).value;
            var before := sheet.shiftAssignments[k];
            var r := OnDragEnd(Some(sheet), selected, AssignDrop(staffId, positionId));
            StaffOf(r.value.shiftAssignments[k]) + OccupantOf(before.positions[x]) == StaffOf(before)
  {
    var k := FirstShift(sheet.shiftAssignments, selected).value;
    var before := sheet.shiftAssignments[k];
    var j := FirstStaff(before.availableStaff, staffId).value;
    var staff := before.availableStaff[j];
    PrefixedId(positionId);
    var r := OnDragEnd(Some(sheet), selected, AssignDrop(staffId, positionId));
    var after := r.value.shiftAssignments[k];
    assert after.positions == Occupy(before.positions, positionId, staff);
    assert after.availableStaff == WithoutStaff(before.availableStaff, staffId);
    OccupyOne(before.positions, positionId, staff, x);
    RemoveOne(before.availableStaff, staffId, j);
    var pool', seated', seated, vacated := multiset(after.availableStaff), Occupants(after.positions),
      Occupants(before.positions), OccupantOf(before.positions[x]);
    calc {
      StaffOf(after) + vacated;
      (pool' + seated') + vacated;
      pool' + (seated' + vacated);
      pool' + (seated + multiset{staff});
      (pool' + multiset{staff}) + seated;
      StaffOf(before);
    }
  }

  /**
   * Conservation when unassigning: if the source position occurs once in
   * the selected shift and is occupied, the occupant moves to the pool and
   * the shift holds exactly the same staff.
   */
  lemma {:induction false} UnassignConserves(sheet: Sheet, selected: string, staffId: string, positionId: string)
    requires FirstShift(sheet.shiftAssignments, selected).Some?
    requires var before := sheet.shiftAssignments[FirstShift(sheet.shiftAssignments, selected).value];
             CountPositions(before.positions, positionId) == 1
    ensures var k := FirstShift(sheet.shiftAssignments, selected).value;
            var r := OnDragEnd(Some(sheet), selected, UnassignDrop(staffId, positionId));
            StaffOf(r.value.shiftAssignments[k]) == StaffOf(sheet.shiftAssignments[k])
  {
    var k := FirstShift(sheet.shiftAssignments, selected).value;
    var before := sheet.shiftAssignments[k];
    UnassignMoves(sheet, selected, staffId, positionId);
    var r := OnDragEnd(Some(sheet), selected, UnassignDrop(staffId, positionId));
    var j := FirstPosition(before.positions, positionId).value;
    var occupant := before.positions[j].assignedStaff;
    if occupant.Some? {
      var after := r.value.shiftAssignments[k];
      VacateOne(before.positions, positionId, j);
      var pool, seated, seated' := multiset(before.availableStaff), Occupants(before.positions),
        Occupants(after.positions);
      calc {
        StaffOf(after);
        (pool + multiset{occupant.value}) + seated';
        pool + (seated' + multiset{occupant.value});
        pool + seated;
      }
    }
  }

  lemma {:induction false} SameShiftIds(a: seq<ShiftAssignment>, b: seq<ShiftAssignment>, id: string)
    requires |a| == |b| && forall i :: 0 <= i < |a| ==> a[i].id == b[i].id
    ensures FirstShift(a, id) == FirstShift(b, id)
  {
    if a != [] {
      SameShiftIds(a[1..], b[1..], id);
    }
  }

  lemma {:induction false} SamePositionIds(a: seq<Position>, b: seq<Position>, id: string)
    requires |a| == |b| && forall i :: 0 <= i < |a| ==> a[i].id == b[i].id
    ensures FirstPosition(a, id) == FirstPosition(b, id)
  {
    if a != [] {
      SamePositionIds(a[1..], b[1..], id);
    }
  }

  /**
   * Round trip: dragging a pool member onto a position whose copies are all
   * empty and dragging that occupant straight back restores the positions,
   * and leaves the pool as it was except that the member now sits at the
   * end (and any other pool entry with the same id is gone). With the id
   * unique in the pool the pool holds the same members as before.
   */
  lemma {:induction false} AssignThenUnassign(sheet: Sheet, selected: string, staffId: string, positionId: string)
    requires FirstShift(sheet.shiftAssignments, selected).Some?
    requires var before := sheet.shiftAssignments[FirstShift(sheet.shiftAssignments, selected).value];
             && FirstStaff(before.availableStaff, staffId).Some?
             && FirstPosition(before.positions, positionId).Some?
             && forall i :: 0 <= i < |before.positions| && before.positions[i].id == positionId ==>
                  before.positions[i].assignedStaff.None?
    ensures var k := FirstShift(sheet.shiftAssignments, selected).value;
            var before := sheet.shiftAssignments[k];
            var staff := before.availableStaff[FirstStaff(before.availableStaff, staffId).value];
            var once := OnDragEnd(Some(sheet), selected, AssignDrop(staffId, positionId));
            var twice := OnDragEnd(once, selected, UnassignDrop(staffId, positionId));
            var after := twice.value.shiftAssignments[k];
            && after.positions == before.positions
            && after.availableStaff == Filter(before.availableStaff, (s: StaffMember) => s.id != staffId) + [staff]
            && (CountStaff(before.availableStaff, staffId) == 1 ==>
                  multiset(after.availableStaff) == multiset(before.availableStaff))
  {
    var shifts := sheet.shiftAssignments;
    var k := FirstShift(shifts, selected).value;
    var before := shifts[k];
    var j := FirstStaff(before.availableStaff, staffId).value;
    var staff := before.availableStaff[j];
    AssignMoves(sheet, selected, staffId, positionId);
    var once := OnDragEnd(Some(sheet), selected, AssignDrop(staffId, positionId));
    var middle := once.value.shiftAssignments[k];
    SameShiftIds(once.value.shiftAssignments, shifts, selected);
    SamePositionIds(middle.positions, before.positions, positionId);
    var x := FirstPosition(before.positions, positionId).value;
    assert middle.positions[x].assignedStaff == Some(staff);
    UnassignMoves(once.value, selected, staffId, positionId);
    var twice := OnDragEnd(once, selected, UnassignDrop(staffId, positionId));
    var after := twice.value.shiftAssignments[k];
    assert after.positions == before.positions;
    if CountStaff(before.availableStaff, staffId) == 1 {
      RemoveOne(before.availableStaff, staffId, j);
    }
  }

  /**
   * A drop from the pool onto a position id the selected shift does not
   * have still removes the member from the pool: the member then appears
   * nowhere in the shift. The page only renders drop targets for existing
   * positions, so this needs a stale or foreign drop target.
   */
  lemma {:induction false} AssignToMissingPosition(sheet: Sheet, selected: string, staffId: string, positionId: string)
    requires FirstShift(sheet.shiftAssignments, selected).Some?
    requires var before := sheet.shiftAssignments[FirstShift(sheet.shiftAssignments, selected).value];
             && FirstStaff(before.availableStaff, staffId).Some?
             && FirstPosition(before.positions, positionId).None?
             && CountStaff(before.availableStaff, staffId) == 1
    ensures var k := FirstShift(sheet.shiftAssignments, selected).value;
            var before := sheet.shiftAssignments[k];
            var staff := before.availableStaff[FirstStaff(before.availableStaff, staffId).value];
            var r := OnDragEnd(Some(sheet), selected, AssignDrop(staffId, positionId));
            StaffOf(r.value.shiftAssignments[k]) + multiset{staff} == StaffOf(before)
  {
    var k := FirstShift(sheet.shiftAssignments, selected).value;
    var before := sheet.shiftAssignments[k];
    var j := FirstStaff(before.availableStaff, staffId).value;
    var staff := before.availableStaff[j];
    AssignMoves(sheet, selected, staffId, positionId);
    var r := OnDragEnd(Some(sheet), selected, AssignDrop(staffId, positionId));
    var after := r.value.shiftAssignments[k];
    assert after.positions == before.positions;
    RemoveOne(before.availableStaff, staffId, j);
    var pool', seated := multiset(after.availableStaff), Occupants(before.positions);
    calc {
      StaffOf(after) + multiset{staff};
      (pool' + seated) + multiset{staff};
      (pool' + multiset{staff}) + seated;
      StaffOf(before);
    }
  }
}
