/**
 * The onboarding wizard of a new store: three steps in a fixed order,
 * advanced by handlers after their writes, with the step marker kept
 * in the store_onboarding table.
 */
module Onboarding {
  import opened Util

  /** The step ids, in order. */
  const Steps: seq<string> := ["store_setup", "employee_import", "completed"]

  /** getCurrentStepIndex: the position of the step in the list, -1 when it is not one of them. */
  function StepIndex(step: string): (r: int)
    ensures -1 <= r < |Steps|
    ensures r >= 0 ==> Steps[r] == step
    ensures r == -1 <==> step !in Steps
  {
    if step == Steps[0] then 0
    else if step == Steps[1] then 1
    else if step == Steps[2] then 2
    else -1
  }

  /** The header's "Step n of m". */
  function StepCounter(step: string): (r: (int, int))
    ensures r.1 == |Steps| && r.0 == StepIndex(step) + 1
  {
    (StepIndex(step) + 1, |Steps|)
  }

  /** What the wizard shows for a step. */
  datatype Screen = StoreSetupForm | ImportForm | Done | Blank

  function ScreenFor(step: string): (r: Screen)
    ensures r == Done <==> step == "completed"
    ensures r == Blank <==> StepIndex(step) == -1
  {
    if step == "completed" then Done
    else if step == "store_setup" then StoreSetupForm
    else if step == "employee_import" then ImportForm
    else Blank
  }

  /**
   * A stored step outside the list shows neither form: the header reads
   * "Step 0 of 3" and no handler is offered.
   */
  lemma UnknownStepStalls(step: string)
    requires step !in Steps
    ensures ScreenFor(step) == Blank && StepCounter(step) == (0, 3)
  {
  }

  datatype StoreForm = StoreForm(name: string, location: string, address: string, phone: string)

  /** The store form's button is enabled only while the trimmed name is non-empty. */
  predicate CanSubmitStoreSetup(form: StoreForm) {
    Trim(form.name) != ""
  }

  /** A name of blanks alone never enables the button. */
  lemma BlankNameBlocks(form: StoreForm)
    ensures CanSubmitStoreSetup(form) <==> exists i :: 0 <= i < |form.name| && !IsJsSpace(form.name[i])
  {
    TrimEmptyIff(form.name);
  }

  datatype Employee = Employee(firstName: string, lastName: string, email: string, role: string, employeeId: string, phone: string)

  /** The employees listed for import when the wizard opens. */
  const TestEmployees: seq<Employee> := [
    Employee("John", "Smith", "john.smith@example.com", "shift_leader", "EMP001", "555-0101"),
    Employee("Sarah", "Johnson", "sarah.johnson@example.com", "team_member", "EMP002", "555-0102"),
    Employee("Mike", "Davis", "mike.davis@example.com", "team_member", "EMP003", "555-0103"),
    Employee("Emily", "Brown", "emily.brown@example.com", "team_member", "EMP004", "555-0104"),
    Employee("Chris", "Wilson", "chris.wilson@example.com", "team_member", "EMP005", "555-0105"),
    Employee("Lisa", "Garcia", "lisa.garcia@example.com", "team_member", "EMP006", "555-0106"),
    Employee("David", "Martinez", "david.martinez@example.com", "team_member", "EMP007", "555-0107"),
    Employee("Jessica", "Anderson", "jessica.anderson@example.com", "team_member", "EMP008", "555-0108"),
    Employee("Ryan", "Taylor", "ryan.taylor@example.com", "team_member", "EMP009", "555-0109"),
    Employee("Amanda", "Thomas", "amanda.thomas@example.com", "team_member", "EMP010", "555-0110"),
    Employee("Kevin", "Jackson", "kevin.jackson@example.com", "team_member", "EMP011", "555-0111"),
    Employee("Michelle", "White", "michelle.white@example.com", "team_member", "EMP012", "555-0112"),
    Employee("Brandon", "Harris", "brandon.harris@example.com", "team_member", "EMP013", "555-0113"),
    Employee("Ashley", "Clark", "ashley.clark@example.com", "team_member", "EMP014", "555-0114"),
    Employee("Tyler", "Lewis", "tyler.lewis@example.com", "team_member", "EMP015", "555-0115"),
    Employee("Stephanie", "Walker", "stephanie.walker@example.com", "team_member", "EMP016", "555-0116")
  ]

  /** An employee_invitations row as the wizard inserts it. */
  datatype Invitation = Invitation(storeId: string, email: string, firstName: string, lastName: string,
                                   role: string, employeeId: string, phone: string)

  function InvitationFor(storeId: string, e: Employee): Invitation {
    Invitation(storeId, e.email, e.firstName, e.lastName, e.role, e.employeeId, e.phone)
  }

  /** The employee an invitation was made for. */
  function EmployeeOf(inv: Invitation): Employee {
    Employee(inv.firstName, inv.lastName, inv.email, inv.role, inv.employeeId, inv.phone)
  }

  /** One invitation per selected employee, in order, each for the store. */
  function Invitations(storeId: string, employees: seq<Employee>): (r: seq<Invitation>)
    ensures |r| == |employees|
    ensures forall i :: 0 <= i < |r| ==> r[i].storeId == storeId && EmployeeOf(r[i]) == employees[i]
  {
    seq(|employees|, i requires 0 <= i < |employees| => InvitationFor(storeId, employees[i]))
  }

  /** The invitations carry the employees back: reading them gives the selected list again. */
  lemma InvitationsRoundTrip(storeId: string, employees: seq<Employee>)
    ensures var inv := Invitations(storeId, employees);
            seq(|inv|, i requires 0 <= i < |inv| => EmployeeOf(inv[i])) == employees
  {
    var inv := Invitations(storeId, employees);
    var back := seq(|inv|, i requires 0 <= i < |inv| => EmployeeOf(inv[i]));
    assert forall i :: 0 <= i < |back| ==> back[i] == employees[i];
  }

  /** The handlers the wizard's screens offer. */
  datatype Handler = SubmitStoreSetup | ImportEmployees | Finish

  /** The handler each screen offers, if any. */
  function Offered(s: Screen): Option<Handler> {
    match s
    case StoreSetupForm => Some(SubmitStoreSetup)
    case ImportForm => Some(ImportEmployees)
    case Done => Some(Finish)
    case Blank => None
  }

  /** The local step after a handler's main write succeeds. */
  function Advance(h: Handler, step: string): string {
    match h
    case SubmitStoreSetup => "employee_import"
    case ImportEmployees => "completed"
    case Finish => step
  }

  /**
   * No handler a screen offers moves the step backwards; the two forms
   * each move it exactly one step forward.
   */
  lemma OfferedNeverBack(step: string)
    requires Offered(ScreenFor(step)).Some?
    ensures var h := Offered(ScreenFor(step)).value;
            && StepIndex(Advance(h, step)) >= StepIndex(step) >= 0
            && (h != Finish ==> StepIndex(Advance(h, step)) == StepIndex(step) + 1)
  {
  }

  /** Following the offered handlers from the first step reaches completed in two successful steps. */
  lemma TwoStepsToDone()
    ensures var s1 := Advance(Offered(ScreenFor(Steps[0])).value, Steps[0]);
            var s2 := Advance(Offered(ScreenFor(s1)).value, s1);
            s1 == "employee_import" && s2 == "completed" && ScreenFor(s2) == Done
  {
  }

  datatype StoreRow = StoreRow(id: string, name: string, location: string, address: string, phone: string)

  /** A store_onboarding row: one per store. */
  datatype MarkerRow = MarkerRow(storeId: string, step: string, updatedAt: int)

  function FindMarker(rows: seq<MarkerRow>, storeId: string): (r: Option<nat>)
    ensures r.Some? ==> r.value < |rows| && rows[r.value].storeId == storeId
    ensures r.Some? ==> forall j :: 0 <= j < r.value ==> rows[j].storeId != storeId
    ensures r.None? ==> forall j :: 0 <= j < |rows| ==> rows[j].storeId != storeId
  {
    if rows == [] then None
    else if rows[0].storeId == storeId then Some(0)
    else match FindMarker(rows[1..], storeId)
      case None => None
      case Some(k) => Some(k + 1)
  }

  /** The upsert keyed by store: the store's row takes the new step, or a row is added. */
  function Upsert(rows: seq<MarkerRow>, storeId: string, step: string, now: int): (r: seq<MarkerRow>)
    ensures FindMarker(r, storeId).Some? && r[FindMarker(r, storeId).value] == MarkerRow(storeId, step, now)
    ensures |rows| <= |r| && forall j :: 0 <= j < |rows| && rows[j].storeId != storeId ==> r[j] == rows[j]
    ensures |r| == |rows| + (if FindMarker(rows, storeId).None? then 1 else 0)
    ensures forall j :: 0 <= j < |rows| && FindMarker(rows, storeId) != Some(j) ==> r[j] == rows[j]
  {
    match FindMarker(rows, storeId)
    case Some(k) =>
      var r := rows[k := MarkerRow(storeId, step, now)];
      assert forall j :: 0 <= j < k ==> r[j] == rows[j];
      assert r[k].storeId == storeId;
      assert FindMarker(r, storeId) == Some(k);
      r
    case None =>
      var r := rows + [MarkerRow(storeId, step, now)];
      assert r[|rows|].storeId == storeId;
      r
  }

  /** Whether the onboarding lookup fails with anything but "no row". */
  datatype Lookup = Answered | Failed

  class Wizard {
    /** The signed-in store's id; empty when there is none. */
    const storeId: string
    var currentStep: string
    var onboardingData: Option<MarkerRow>
    var storeForm: StoreForm
    var selectedEmployees: seq<Employee>

    var stores: seq<StoreRow>
    var markers: seq<MarkerRow>
    var invitations: seq<Invitation>

    constructor (storeId: string, stores: seq<StoreRow>, markers: seq<MarkerRow>, invitations: seq<Invitation>)
      ensures this.storeId == storeId && this.stores == stores && this.markers == markers && this.invitations == invitations
      ensures currentStep == "store_setup" && onboardingData.None?
      ensures storeForm == StoreForm("", "", "", "") && selectedEmployees == TestEmployees
    {
      this.storeId := storeId;
      this.stores := stores;
      this.markers := markers;
      this.invitations := invitations;
      currentStep := "store_setup";
      onboardingData := None;
      storeForm := StoreForm("", "", "", "");
      selectedEmployees := TestEmployees;
    }

    /** loadOnboardingStatus: a stored row for the store overrides the local step. */
    method LoadOnboardingStatus(lookup: Lookup)
      modifies this
      ensures stores == old(stores) && markers == old(markers) && invitations == old(invitations)
      ensures storeForm == old(storeForm) && selectedEmployees == old(selectedEmployees)
      ensures storeId != "" && lookup == Answered && FindMarker(markers, storeId).Some? ==>
                var row := markers[FindMarker(markers, storeId).value];
                currentStep == row.step && onboardingData == Some(row)
      ensures !(storeId != "" && lookup == Answered && FindMarker(markers, storeId).Some?) ==>
                currentStep == old(currentStep) && onboardingData == old(onboardingData)
    {
      if storeId == "" {
        return;
      }
      if lookup == Failed {
        return;
      }
      var k := FindMarker(markers, storeId);
      if k.Some? {
        onboardingData := Some(markers[k.value]);
        currentStep := markers[k.value].step;
      }
    }

    /** updateOnboardingStep: the store's marker takes the step; a failed write is ignored. */
    method UpdateOnboardingStep(step: string, now: int, ok: bool)
      modifies this
      ensures storeId != "" && ok ==> markers == Upsert(old(markers), storeId, step, now)
      ensures !(storeId != "" && ok) ==> markers == old(markers)
      ensures currentStep == old(currentStep) && onboardingData == old(onboardingData)
      ensures stores == old(stores) && invitations == old(invitations)
      ensures storeForm == old(storeForm) && selectedEmployees == old(selectedEmployees)
    {
      if storeId == "" {
        return;
      }
      if ok {
        markers := Upsert(markers, storeId, step, now);
      }
    }

    /**
     * handleStoreSetup: the store takes the form's fields; only after that
     * write succeeds does the step become employee_import, whether or not
     * the marker write succeeds.
     */
    method HandleStoreSetup(now: int, storeOk: bool, markerOk: bool)
      modifies this
      ensures storeId == "" || !storeOk ==>
                currentStep == old(currentStep) && stores == old(stores) && markers == old(markers)
      ensures storeId != "" && storeOk ==>
                && currentStep == Advance(SubmitStoreSetup, old(currentStep))
                && stores == StoreUpdate(old(stores), storeId, old(storeForm))
                && markers == (if markerOk then Upsert(old(markers), storeId, "employee_import", now) else old(markers))
      ensures invitations == old(invitations) && storeForm == old(storeForm)
      ensures onboardingData == old(onboardingData) && selectedEmployees == old(selectedEmployees)
    {
      if storeId == "" {
        return;
      }
      if !storeOk {
        return;
      }
      stores := StoreUpdate(stores, storeId, storeForm);
      UpdateOnboardingStep("employee_import", now, markerOk);
      currentStep := "employee_import";
    }

    /**
     * handleEmployeeImport: one invitation per selected employee; only
     * after that insert succeeds does the step become completed, whether
     * or not the marker write succeeds.
     */
    method HandleEmployeeImport(now: int, insertOk: bool, markerOk: bool)
      modifies this
      ensures storeId == "" || !insertOk ==>
                currentStep == old(currentStep) && invitations == old(invitations) && markers == old(markers)
      ensures storeId != "" && insertOk ==>
                && currentStep == Advance(ImportEmployees, old(currentStep))
                && invitations == old(invitations) + Invitations(storeId, old(selectedEmployees))
                && markers == (if markerOk then Upsert(old(markers), storeId, "completed", now) else old(markers))
      ensures stores == old(stores) && selectedEmployees == old(selectedEmployees)
      ensures onboardingData == old(onboardingData) && storeForm == old(storeForm)
    {
      if storeId == "" {
        return;
      }
      var batch := Invitations(storeId, selectedEmployees);
      if !insertOk {
        return;
      }
      invitations := invitations + batch;
      UpdateOnboardingStep("completed", now, markerOk);
      currentStep := "completed";
    }

    /** handleComplete: the marker is written as completed; the local step stays. */
    method HandleComplete(now: int, ok: bool)
      modifies this
      ensures storeId != "" && ok ==> markers == Upsert(old(markers), storeId, "completed", now)
      ensures !(storeId != "" && ok) ==> markers == old(markers)
      ensures currentStep == old(currentStep) && stores == old(stores) && invitations == old(invitations)
      ensures onboardingData == old(onboardingData) && storeForm == old(storeForm)
      ensures selectedEmployees == old(selectedEmployees)
    {
      UpdateOnboardingStep("completed", now, ok);
    }
  }

  /** `update(form).eq('id', storeId)` on the stores table. */
  function StoreUpdate(rows: seq<StoreRow>, storeId: string, form: StoreForm): (r: seq<StoreRow>)
    ensures |r| == |rows|
    ensures forall i :: 0 <= i < |rows| ==>
              r[i] == if rows[i].id == storeId then StoreRow(storeId, form.name, form.location, form.address, form.phone) else rows[i]
  {
    seq(|rows|, i requires 0 <= i < |rows| =>
      if rows[i].id == storeId then StoreRow(storeId, form.name, form.location, form.address, form.phone) else rows[i])
  }

  /**
   * The first import from a fresh wizard inserts the sixteen listed
   * employees, all for the store, one of them a shift leader.
   */
  lemma FirstImport(storeId: string)
    ensures |Invitations(storeId, TestEmployees)| == 16
    ensures Invitations(storeId, TestEmployees)[0].role == "shift_leader"
    ensures forall i :: 1 <= i < 16 ==> Invitations(storeId, TestEmployees)[i].role == "team_member"
  {
  }
}
