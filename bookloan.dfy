/**
 * The loan record (`custom.book.loan`): its due date, its late fine, its
 * naming on create, the three state actions and the daily overdue sweep.
 * Dates are day numbers; "today" is always passed in.
 */
module BookLoan {
  import opened Optional
  import IrSequence

  datatype LoanState = Draft | Confirmed | Returned | Overdue | Lost

  /** The default of `loan_duration`, in days. */
  const DefaultDuration: int := 14

  /** The fine of 1.50 per day late, in cents. */
  const FinePerDayCents: nat := 150

  /** `_compute_return_date`: the loan date plus the loan duration; unset without a loan date. */
  function ReturnDate(loanDate: Option<int>, duration: int): (r: Option<int>)
    ensures r.Some? <==> loanDate.Some?
    ensures r.Some? ==> r.value - loanDate.value == duration
  {
    match loanDate
    case None => None
    case Some(d) => Some(d + duration)
  }

  /** `_compute_fine` for one loan, in cents. */
  function Fine(state: LoanState, returnDate: Option<int>, actualReturnDate: Option<int>, today: int): (cents: nat)
    ensures cents % FinePerDayCents == 0
    // only returned and overdue loans can owe anything, and only against a due date
    ensures state != Returned && state != Overdue ==> cents == 0
    ensures returnDate.None? ==> cents == 0
  {
    if state == Returned && actualReturnDate.Some? && returnDate.Some? then
      if actualReturnDate.value > returnDate.value then
        (actualReturnDate.value - returnDate.value) * FinePerDayCents
      else 0
    else if state == Overdue && returnDate.Some? then
      if today > returnDate.value then (today - returnDate.value) * FinePerDayCents else 0
    else 0
  }

  /** The calendar days after the due date up to and including `stop`, one by one. */
  function LateDays(due: int, stop: int): (days: seq<int>)
    ensures forall i :: 0 <= i < |days| ==> due < days[i] <= stop
    decreases stop - due
  {
    if stop <= due then [] else LateDays(due, stop - 1) + [stop]
  }

  lemma {:induction false} LateDaysCount(due: int, stop: int)
    ensures |LateDays(due, stop)| == if stop > due then stop - due else 0
    decreases stop - due
  {
    if stop > due {
      LateDaysCount(due, stop - 1);
    }
  }

  /** The day up to which lateness is counted: the actual return, or today while overdue. */
  function FineStop(state: LoanState, actualReturnDate: Option<int>, today: int): Option<int>
  {
    if state == Returned then actualReturnDate
    else if state == Overdue then Some(today)
    else None
  }

  /**
   * The fine, counted independently: 1.50 for every calendar day after the
   * due date up to the day the book came back (returned) or the day it is computed (overdue).
   */
  lemma FineCountsLateDays(state: LoanState, returnDate: Option<int>, actualReturnDate: Option<int>, today: int)
    ensures var stop := FineStop(state, actualReturnDate, today);
      Fine(state, returnDate, actualReturnDate, today) ==
        if returnDate.Some? && stop.Some? then FinePerDayCents * |LateDays(returnDate.value, stop.value)| else 0
  {
    var stop := FineStop(state, actualReturnDate, today);
    if returnDate.Some? && stop.Some? {
      LateDaysCount(returnDate.value, stop.value);
    }
  }

  /** A fine is owed exactly when the book came back, or is still out, after the due date. */
  lemma FinePositiveIffLate(state: LoanState, returnDate: Option<int>, actualReturnDate: Option<int>, today: int)
    ensures Fine(state, returnDate, actualReturnDate, today) > 0 <==>
      returnDate.Some? &&
      ((state == Returned && actualReturnDate.Some? && actualReturnDate.value > returnDate.value) ||
       (state == Overdue && today > returnDate.value))
  {
  }

  /** On its return day, an overdue loan's fine computed that day is the same once it is returned. */
  lemma ReturnTodayKeepsFine(returnDate: Option<int>, actualReturnDate: Option<int>, today: int)
    ensures Fine(Returned, returnDate, Some(today), today) == Fine(Overdue, returnDate, actualReturnDate, today)
  {
  }

  /** The search domain of the sweep: confirmed, and due strictly before today. */
  predicate OverdueCandidate(state: LoanState, returnDate: Option<int>, today: int)
  {
    state == Confirmed && returnDate.Some? && returnDate.value < today
  }

  /** A loan the sweep turns overdue owes at least one day's fine from then on. */
  lemma SweptLoanOwesFine(returnDate: Option<int>, actualReturnDate: Option<int>, today: int)
    requires OverdueCandidate(Confirmed, returnDate, today)
    ensures Fine(Overdue, returnDate, actualReturnDate, today) >= FinePerDayCents
  {
  }

  /** The values `create` receives; `None` is a key left out of `vals`. */
  datatype LoanVals = LoanVals(
    name: Option<string>,
    bookId: int,
    memberId: int,
    loanDate: Option<int>,
    loanDuration: Option<int>)

  class Loan {
    var name: string
    var bookId: int
    var memberId: int
    var loanDate: Option<int>
    var loanDuration: int
    var returnDate: Option<int>
    var actualReturnDate: Option<int>
    var state: LoanState
    var fineCents: int

    /**
     * `create`: the reference comes from the sequence unless one was given,
     * the remaining fields take their defaults, and the stored computed fields
     * are computed as the ORM does on creation.
     */
    constructor Create(vals: LoanVals, next: Option<string>, today: int)
      ensures name == IrSequence.AssignName(vals.name, next)
      ensures bookId == vals.bookId && memberId == vals.memberId
      ensures loanDate == Some(if vals.loanDate.Some? then vals.loanDate.value else today)
      ensures loanDuration == (if vals.loanDuration.Some? then vals.loanDuration.value else DefaultDuration)
      ensures state == Draft && actualReturnDate.None?
      ensures returnDate == ReturnDate(loanDate, loanDuration) && fineCents == 0
    {
      name := IrSequence.AssignName(vals.name, next);
      bookId := vals.bookId;
      memberId := vals.memberId;
      loanDate := Some(if vals.loanDate.Some? then vals.loanDate.value else today);
      loanDuration := if vals.loanDuration.Some? then vals.loanDuration.value else DefaultDuration;
      state := Draft;
      actualReturnDate := None;
      new;
      returnDate := ReturnDate(loanDate, loanDuration);
      fineCents := Fine(state, returnDate, actualReturnDate, today);
    }
  }

  /** `_compute_return_date` over a recordset. */
  method ComputeReturnDate(loans: seq<Loan>)
    modifies loans`returnDate
    ensures forall l :: l in loans ==> l.returnDate == ReturnDate(l.loanDate, l.loanDuration)
  {
    var i := 0;
    while i < |loans|
      invariant 0 <= i <= |loans|
      invariant forall l :: l in loans[..i] ==> l.returnDate == ReturnDate(l.loanDate, l.loanDuration)
    {
      var loan := loans[i];
      loan.returnDate := ReturnDate(loan.loanDate, loan.loanDuration);
      i := i + 1;
    }
  }

  /** `_compute_fine` over a recordset. */
  method ComputeFine(loans: seq<Loan>, today: int)
    modifies loans`fineCents
    ensures forall l :: l in loans ==> l.fineCents == Fine(l.state, l.returnDate, l.actualReturnDate, today)
  {
    var i := 0;
    while i < |loans|
      invariant 0 <= i <= |loans|
      invariant forall l :: l in loans[..i] ==> l.fineCents == Fine(l.state, l.returnDate, l.actualReturnDate, today)
    {
      var loan := loans[i];
      loan.fineCents := Fine(loan.state, loan.returnDate, loan.actualReturnDate, today);
      i := i + 1;
    }
  }

  /** The loop shared by the state actions: every loan of the set gets `target`, whatever it was. */
  method SetState(loans: seq<Loan>, target: LoanState)
    modifies loans`state
    ensures forall l :: l in loans ==> l.state == target
  {
    var i := 0;
    while i < |loans|
      invariant 0 <= i <= |loans|
      invariant forall l :: l in loans[..i] ==> l.state == target
    {
      loans[i].state := target;
      i := i + 1;
    }
  }

  /** `action_confirm`: no guard on the prior state. */
  method ActionConfirm(loans: seq<Loan>)
    modifies loans`state
    ensures forall l :: l in loans ==> l.state == Confirmed
  {
    SetState(loans, Confirmed);
  }

  /** `action_return`: stamps today's date and marks every loan returned. */
  method ActionReturn(loans: seq<Loan>, today: int)
    modifies loans`state, loans`actualReturnDate
    ensures forall l :: l in loans ==> l.state == Returned && l.actualReturnDate == Some(today)
  {
    var i := 0;
    while i < |loans|
      invariant 0 <= i <= |loans|
      invariant forall l :: l in loans[..i] ==> l.state == Returned && l.actualReturnDate == Some(today)
    {
      var loan := loans[i];
      loan.actualReturnDate := Some(today);
      loan.state := Returned;
      i := i + 1;
    }
  }

  /** `action_mark_lost`: no guard on the prior state. */
  method ActionMarkLost(loans: seq<Loan>)
    modifies loans`state
    ensures forall l :: l in loans ==> l.state == Lost
  {
    SetState(loans, Lost);
  }

  /** The sweep's `search`: the loans of the table inside its domain, in table order. */
  function SearchOverdue(table: seq<Loan>, today: int): (found: seq<Loan>)
    reads table
    ensures forall i :: 0 <= i < |found| ==>
      found[i] in table && OverdueCandidate(found[i].state, found[i].returnDate, today)
    ensures forall i :: 0 <= i < |table| && OverdueCandidate(table[i].state, table[i].returnDate, today) ==>
      table[i] in found
  {
    if table == [] then []
    else
      var rest := SearchOverdue(table[1..], today);
      if OverdueCandidate(table[0].state, table[0].returnDate, today) then [table[0]] + rest else rest
  }

  /**
   * `_cron_check_overdue`: exactly the confirmed loans due before today become
   * overdue; every other loan keeps its state.
   */
  method CronCheckOverdue(table: seq<Loan>, today: int)
    modifies table`state
    ensures forall l :: l in table ==>
      l.state == if OverdueCandidate(old(l.state), l.returnDate, today) then Overdue else old(l.state)
  {
    var found := SearchOverdue(table, today);
    var i := 0;
    while i < |found|
      invariant 0 <= i <= |found|
      invariant forall l :: l in table ==> l.state == if l in found[..i] then Overdue else old(l.state)
    {
      found[i].state := Overdue;
      i := i + 1;
    }
  }
}
