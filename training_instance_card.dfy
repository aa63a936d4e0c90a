/**
 * The card that shows one training instance: its status badge, the one
 * action button its status offers, and the expiry and approver notes.
 * Times are milliseconds since the epoch; the clock reading is a parameter.
 */
module TrainingInstanceCard {
  import opened Util

  datatype InstanceStatus = Assigned | InProgress | Completed | Approved | Expired

  datatype Level = Beginner | Intermediate | Advanced

  /** The template fields joined onto an instance. */
  datatype TemplateSummary = TemplateSummary(
    id: string,
    name: string,
    description: string,
    level: Level,
    category: string,
    estimatedDurationHours: int,
    certificationRequired: bool)

  datatype Approver = Approver(firstName: string, lastName: string)

  datatype TrainingInstance = TrainingInstance(
    id: string,
    templateId: string,
    profileId: string,
    status: InstanceStatus,
    progressPercentage: int,
    assignedAt: int,
    startedAt: Option<int>,
    completedAt: Option<int>,
    approvedAt: Option<int>,
    approvedBy: Option<string>,
    certificationEarned: bool,
    expiresAt: int,
    template: TemplateSummary,
    approver: Option<Approver>)

  const DayMs: int := 1000 * 60 * 60 * 24

  /** The badge text of each status (statusConfig). */
  function StatusLabel(s: InstanceStatus): string {
    match s
    case Assigned => "Not Started"
    case InProgress => "In Progress"
    case Completed => "Pending Approval"
    case Approved => "Approved"
    case Expired => "Expired"
  }

  /** The status a badge text stands for. */
  function StatusOfLabel(text: string): Option<InstanceStatus> {
    if text == "Not Started" then Some(Assigned)
    else if text == "In Progress" then Some(InProgress)
    else if text == "Pending Approval" then Some(Completed)
    else if text == "Approved" then Some(Approved)
    else if text == "Expired" then Some(Expired)
    else None
  }

  /** Every status has exactly one badge text, and no two statuses share one. */
  lemma LabelsDistinct(a: InstanceStatus, b: InstanceStatus)
    ensures StatusOfLabel(StatusLabel(a)) == Some(a)
    ensures StatusLabel(a) == StatusLabel(b) <==> a == b
  {
    assert StatusOfLabel(StatusLabel(b)) == Some(b);
  }

  /** The card's callbacks. */
  datatype Handler = OnStart | OnContinue | OnReview

  datatype ActionButton = ActionButton(text: string, handler: Handler, enabled: bool)

  /** getActionButton: a switch on the stored status only. */
  function ActionFor(s: InstanceStatus): (r: ActionButton)
    ensures r.enabled <==> s != Expired
    ensures r.handler == OnReview <==> s == Completed || s == Approved
    ensures r.handler == OnContinue <==> s == InProgress
  {
    match s
    case Assigned => ActionButton("Start Training", OnStart, true)
    case InProgress => ActionButton("Continue Training", OnContinue, true)
    case Completed => ActionButton("Review Training", OnReview, true)
    case Approved => ActionButton("Review Training", OnReview, true)
    case Expired => ActionButton("Expired", OnStart, false)
  }

  /** `new Date(expires_at) < new Date()` */
  predicate IsExpired(expiresAt: int, now: int) {
    expiresAt < now
  }

  /** `Math.ceil((expires_at - now) / day)`, exactly, for either sign. */
  function DaysLeft(expiresAt: int, now: int): (r: int)
    ensures (r - 1) * DayMs < expiresAt - now <= r * DayMs
  {
    CeilDiv(expiresAt - now, DayMs)
  }

  /** Everything on the card that depends on the status or the clock. */
  datatype CardView = CardView(
    badge: string,
    action: ActionButton,
    expired: bool,
    daysLeft: int,
    showWarning: bool,
    showApprover: bool)

  function Card(i: TrainingInstance, now: int): CardView {
    var expired := IsExpired(i.expiresAt, now);
    var days := DaysLeft(i.expiresAt, now);
    CardView(StatusLabel(i.status), ActionFor(i.status), expired, days,
             !expired && days <= 7 && i.status != Approved,
             i.status == Approved && i.approver.Some?)
  }

  /**
   * The expiry warning shows exactly when the expiry lies between now and
   * seven days ahead (both ends included) and the instance is not yet
   * approved; the day count it shows is then between 0 and 7.
   */
  lemma WarningWindow(i: TrainingInstance, now: int)
    ensures Card(i, now).showWarning <==>
              now <= i.expiresAt <= now + 7 * DayMs && i.status != Approved
    ensures Card(i, now).showWarning ==> 0 <= Card(i, now).daysLeft <= 7
  {
    var d := DaysLeft(i.expiresAt, now);
    var delta := i.expiresAt - now;
    if d <= 7 {
      assert delta <= d * DayMs <= 7 * DayMs;
    }
    if delta <= 7 * DayMs {
      assert (d - 1) * DayMs < 7 * DayMs;
    }
    if 0 <= delta {
      PositiveFactor(DayMs, d);
    }
  }

  lemma PositiveFactor(q: int, x: int)
    requires q > 0 && q * x >= 0
    ensures x >= 0
  {
  }

  /**
   * The clock never changes the offered action: an instance past its
   * expiry that is still in progress offers Continue, enabled.
   */
  lemma ActionIgnoresExpiry(i: TrainingInstance, now1: int, now2: int)
    ensures Card(i, now1).action == Card(i, now2).action
    ensures i.status == InProgress && IsExpired(i.expiresAt, now1) ==>
              Card(i, now1).action == ActionButton("Continue Training", OnContinue, true)
  {
  }

  /** The approver note shows only for an approved instance that has an approver. */
  lemma ApproverShown(i: TrainingInstance, now: int)
    ensures Card(i, now).showApprover <==> i.status == Approved && i.approver.Some?
    ensures Card(i, now).showApprover ==> !Card(i, now).showWarning
  {
  }
}
