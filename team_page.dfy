/**
 * The team page: a fixed crew list, its search / role / status filter,
 * the on-shift count, the Q-Cash total, initials and status texts.
 */
module TeamPage {
  import opened Util

  datatype Member = Member(
    id: string,
    name: string,
    role: string,
    status: string,
    qCash: int,
    rating: real,
    shiftHours: real,
    certifications: seq<string>)

  /** The crew the page lists. */
  const Crew: seq<Member> := [
    Member("1", "Mike Rodriguez", "Pitmaster", "active", 420, 4.8, 6.5, ["BBQ Safety", "Temperature Control", "Meat Smoking"]),
    Member("2", "Sarah Wilson", "Shift Leader", "active", 380, 4.9, 7.0, ["Team Leadership", "Customer Service", "Catering Coord"]),
    Member("3", "David Kim", "Prep Cook", "break", 220, 4.6, 4.5, ["Food Safety", "Sauce Prep"]),
    Member("4", "Jessica Chen", "Cashier", "active", 310, 4.7, 5.5, ["POS Systems", "Customer Service", "Order Accuracy"]),
    Member("5", "Marcus Johnson", "Catering Lead", "off-duty", 450, 4.9, 0.0, ["Event Planning", "Large Orders", "Transport Safety"]),
    Member("6", "Emma Davis", "Line Cook", "active", 180, 4.4, 3.0, ["Food Safety", "Grill Operations"])
  ]

  // ---------------------------------------------------------------------
  // Filter
  // ---------------------------------------------------------------------

  predicate MatchesSearch(m: Member, searchTerm: string) {
    Contains(ToLower(m.name), ToLower(searchTerm)) || Contains(ToLower(m.role), ToLower(searchTerm))
  }

  predicate MatchesRole(m: Member, filterRole: string) {
    filterRole == "all" || Contains(ToLower(m.role), ToLower(filterRole))
  }

  predicate MatchesStatus(m: Member, filterStatus: string) {
    filterStatus == "all" || m.status == filterStatus
  }

  predicate Matches(m: Member, searchTerm: string, filterRole: string, filterStatus: string) {
    MatchesSearch(m, searchTerm) && MatchesRole(m, filterRole) && MatchesStatus(m, filterStatus)
  }

  function MemberFilter(searchTerm: string, filterRole: string, filterStatus: string): Member -> bool {
    (m: Member) => Matches(m, searchTerm, filterRole, filterStatus)
  }

  /** filteredMembers: the members meeting all three conditions, in list order. */
  function FilteredMembers(members: seq<Member>, searchTerm: string, filterRole: string, filterStatus: string): (r: seq<Member>)
    ensures IsSubsequence(r, members)
    ensures forall i :: 0 <= i < |r| ==> Matches(r[i], searchTerm, filterRole, filterStatus)
    ensures forall i :: 0 <= i < |members| && Matches(members[i], searchTerm, filterRole, filterStatus) ==> members[i] in r
  {
    FilterIsSubsequence(members, MemberFilter(searchTerm, filterRole, filterStatus));
    Filter(members, MemberFilter(searchTerm, filterRole, filterStatus))
  }

  /** An empty search with both filters on "all" keeps every member. */
  lemma NoFilterKeepsAll(members: seq<Member>)
    ensures forall i :: 0 <= i < |members| ==> members[i] in FilteredMembers(members, "", "all", "all")
  {
    forall i | 0 <= i < |members|
      ensures Matches(members[i], "", "all", "all")
    {
      ContainsEmpty(ToLower(members[i].name));
    }
  }

  /**
   * The status filter is exact: a member is kept only with precisely the
   * chosen status, and under "all" the status does not matter.
   */
  lemma StatusFilterExact(members: seq<Member>, searchTerm: string, filterRole: string, filterStatus: string)
    requires filterStatus != "all"
    ensures forall i :: 0 <= i < |FilteredMembers(members, searchTerm, filterRole, filterStatus)| ==>
              FilteredMembers(members, searchTerm, filterRole, filterStatus)[i].status == filterStatus
  {
  }

  // ---------------------------------------------------------------------
  // Aggregates
  // ---------------------------------------------------------------------

  predicate OnShift(m: Member) {
    m.status == "active"
  }

  function QCashOf(m: Member): int {
    m.qCash
  }

  /** The number of members with status active. */
  function OnShiftCount(members: seq<Member>): (n: nat)
    ensures n <= |members|
    ensures n == 0 <==> forall i :: 0 <= i < |members| ==> members[i].status != "active"
  {
    Count(members, OnShift)
  }

  /** The sum of all members' Q-Cash. */
  function QCashTotal(members: seq<Member>): int {
    Sum(members, QCashOf)
  }

  /** The total splits into the on-shift members' Q-Cash and everyone else's. */
  lemma QCashSplits(members: seq<Member>)
    ensures QCashTotal(members) == Sum(Filter(members, OnShift), QCashOf) + Sum(Filter(members, (m: Member) => !OnShift(m)), QCashOf)
  {
    SumPartition(members, QCashOf, OnShift);
  }

  /** With no negative balances the total bounds every member's balance. */
  lemma {:induction false} QCashBoundsEach(members: seq<Member>, k: nat)
    requires forall i :: 0 <= i < |members| ==> members[i].qCash >= 0
    requires k < |members|
    ensures members[k].qCash <= QCashTotal(members)
  {
    assert members == members[..k] + [members[k]] + members[k + 1..];
    SumAppend(members[..k] + [members[k]], members[k + 1..], QCashOf);
    SumAppend(members[..k], [members[k]], QCashOf);
    NonNegativeSum(members[..k]);
    NonNegativeSum(members[k + 1..]);
  }

  lemma {:induction false} NonNegativeSum(members: seq<Member>)
    requires forall i :: 0 <= i < |members| ==> members[i].qCash >= 0
    ensures QCashTotal(members) >= 0
  {
    if members != [] {
      NonNegativeSum(members[1..]);
    }
  }

  /** The crew's figures: four of six on shift, 1960 Q-Cash in all. */
  lemma CrewFigures()
    ensures OnShiftCount(Crew) == 4
    ensures QCashTotal(Crew) == 1960
  {
    assert Crew == [Crew[0], Crew[1], Crew[2]] + [Crew[3], Crew[4], Crew[5]];
    CountAppend([Crew[0], Crew[1], Crew[2]], [Crew[3], Crew[4], Crew[5]], OnShift);
    SumAppend([Crew[0], Crew[1], Crew[2]], [Crew[3], Crew[4], Crew[5]], QCashOf);
  }

  // ---------------------------------------------------------------------
  // Initials and status text
  // ---------------------------------------------------------------------

  /** `split(' ')`: the pieces between single spaces, empty pieces included. */
  function Pieces(s: string): (r: seq<string>)
    ensures |r| >= 1
  {
    if s == [] then [""]
    else
      var rest := Pieces(s[1..]);
      if s[0] == ' ' then [""] + rest else [[s[0]] + rest[0]] + rest[1..]
  }

  /** `map(n => n[0]).join('')`: the first character of each piece; an empty piece adds nothing. */
  function Heads(pieces: seq<string>): string {
    if pieces == [] then ""
    else (if pieces[0] == "" then "" else [pieces[0][0]]) + Heads(pieces[1..])
  }

  /** The initials shown in a member's avatar. */
  function Initials(name: string): string {
    Heads(Pieces(name))
  }

  /** The characters that begin a word: not a space, and first or after a space. */
  function WordStarts(s: string, afterSpace: bool): (r: string)
    ensures |r| <= |s|
  {
    if s == [] then ""
    else (if s[0] != ' ' && afterSpace then [s[0]] else "") + WordStarts(s[1..], s[0] == ' ')
  }

  /** The initials are exactly the word-initial characters of the name. */
  lemma {:induction false} InitialsAreWordStarts(s: string)
    ensures Initials(s) == WordStarts(s, true)
    decreases |s|, 1
  {
    if s != [] {
      var rest := Pieces(s[1..]);
      if s[0] == ' ' {
        assert Pieces(s) == [""] + rest;
        assert ([""] + rest)[1..] == rest;
        InitialsAreWordStarts(s[1..]);
      } else {
        var p := [[s[0]] + rest[0]] + rest[1..];
        assert Pieces(s) == p;
        assert p[1..] == rest[1..];
        LaterHeads(s[1..]);
      }
    }
  }

  /** The pieces after the first contribute the word starts that follow a space. */
  lemma {:induction false} LaterHeads(s: string)
    ensures Heads(Pieces(s)[1..]) == WordStarts(s, false)
    decreases |s|, 0
  {
    if s != [] {
      var rest := Pieces(s[1..]);
      if s[0] == ' ' {
        assert Pieces(s) == [""] + rest;
        assert Pieces(s)[1..] == rest;
        InitialsAreWordStarts(s[1..]);
      } else {
        assert Pieces(s) == [[s[0]] + rest[0]] + rest[1..];
        assert Pieces(s)[1..] == rest[1..];
        LaterHeads(s[1..]);
      }
    }
  }

  /** getStatusText: the three known statuses get labels; any other status is shown as it is. */
  function StatusText(status: string): (r: string)
    ensures status !in ["active", "break", "off-duty"] ==> r == status
  {
    if status == "active" then "On Shift"
    else if status == "break" then "On Break"
    else if status == "off-duty" then "Off Duty"
    else status
  }

  /**
   * The known labels are distinct, but an unknown status spelled like a
   * label reads the same as the status it names.
   */
  lemma StatusTextCollides()
    ensures StatusText("active") != StatusText("break") && StatusText("break") != StatusText("off-duty")
    ensures StatusText("off-duty") != StatusText("active")
    ensures StatusText("On Shift") == StatusText("active")
  {
    assert "On Shift"[3] != "On Break"[3];
    assert "On Break"[3] != "Off Duty"[1];
    assert "Off Duty"[1] != "On Shift"[1];
  }
}
