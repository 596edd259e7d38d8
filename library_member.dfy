/**
 * The library member record (`custom.library.member`): member numbering on
 * create, the expiry date and loan limit looked up by membership type, and the
 * loan and overdue counts taken from the loan table.
 */
module LibraryMember {
  import opened Optional
  import IrSequence
  import BookLoan

  /** The four listed types, and any other value the field might hold. */
  datatype MembershipType = Standard | Premium | Student | Senior | Unlisted(code: string)

  /** Days from the membership date to the expiry date, by membership type. */
  function ExpiryOffset(t: MembershipType): (days: nat)
    ensures days == 180 || days == 365 || days == 730
  {
    match t
    case Standard => 365
    case Premium => 730
    case Student => 180
    case Senior => 365
    case Unlisted(_) => 365
  }

  /** `_compute_expiry_date` for one member; unset without a membership date. */
  function ExpiryDate(membershipDate: Option<int>, t: MembershipType): (r: Option<int>)
    ensures r.Some? <==> membershipDate.Some?
    // every offset is positive: a set expiry date lies strictly after the membership date
    ensures r.Some? ==> membershipDate.value < r.value <= membershipDate.value + 730
  {
    match membershipDate
    case None => None
    case Some(d) => Some(d + ExpiryOffset(t))
  }

  /** `_compute_loan_limit` for one member: the number of books allowed at once. */
  function LoanLimit(t: MembershipType): (n: nat)
    ensures 3 <= n <= 10
  {
    match t
    case Standard => 3
    case Premium => 10
    case Student => 5
    case Senior => 7
    case Unlisted(_) => 3
  }

  /** A type outside the four listed ones gets the standard terms on both tables. */
  lemma UnlistedTypeGetsStandardTerms(code: string, membershipDate: Option<int>)
    ensures ExpiryDate(membershipDate, Unlisted(code)) == ExpiryDate(membershipDate, Standard)
    ensures LoanLimit(Unlisted(code)) == LoanLimit(Standard)
  {
  }

  /** Premium membership lasts longest and allows the most loans of all types. */
  lemma PremiumIsMostGenerous(t: MembershipType)
    ensures ExpiryOffset(t) <= ExpiryOffset(Premium) && LoanLimit(t) <= LoanLimit(Premium)
  {
  }

  /**
   * A `search_count` domain over the loan table: the member's partner, and
   * optionally one required state (`loan_domain + [('state', '=', ...)]`).
   */
  datatype Domain = Domain(partner: int, state: Option<BookLoan.LoanState>)

  function LoanDomain(partner: int): Domain
  {
    Domain(partner, None)
  }

  function OverdueDomain(partner: int): Domain
  {
    Domain(partner, Some(BookLoan.Overdue))
  }

  predicate Matches(l: BookLoan.Loan, d: Domain)
    reads l
  {
    l.memberId == d.partner && (d.state.None? || l.state == d.state.value)
  }

  /** `search_count(domain)`: how many loans of the table the domain matches. */
  function SearchCount(table: seq<BookLoan.Loan>, d: Domain): (n: nat)
    reads table
    ensures n <= |table|
  {
    if table == [] then 0
    else (if Matches(table[0], d) then 1 else 0) + SearchCount(table[1..], d)
  }

  /** Adding a condition to a domain never makes it match more loans. */
  lemma {:induction false} NarrowedDomainCountsFewer(table: seq<BookLoan.Loan>, partner: int, s: BookLoan.LoanState)
    ensures SearchCount(table, Domain(partner, Some(s))) <= SearchCount(table, Domain(partner, None))
  {
    if table != [] {
      NarrowedDomainCountsFewer(table[1..], partner, s);
    }
  }

  /** The values `create` receives; `None` is a key left out of `vals`. */
  datatype MemberVals = MemberVals(
    memberNumber: Option<string>,
    partnerId: int,
    membershipDate: Option<int>,
    membershipType: Option<MembershipType>)

  class Member {
    var partnerId: int
    var memberNumber: string
    var membershipDate: Option<int>
    var expiryDate: Option<int>
    var active: bool
    var membershipType: MembershipType
    var loanCount: int
    var overdueCount: int
    var maxLoanLimit: int

    /**
     * `create`: the member number comes from the sequence unless one was
     * given; defaults are active, a standard membership starting today; the
     * expiry date and loan limit are computed from them, and the two counts
     * are searches of the loan table (a fresh partner may already have loans).
     */
    constructor Create(vals: MemberVals, next: Option<string>, today: int, table: seq<BookLoan.Loan>)
      ensures memberNumber == IrSequence.AssignName(vals.memberNumber, next)
      ensures partnerId == vals.partnerId && active
      ensures membershipDate == Some(if vals.membershipDate.Some? then vals.membershipDate.value else today)
      ensures membershipType == (if vals.membershipType.Some? then vals.membershipType.value else Standard)
      ensures expiryDate == ExpiryDate(membershipDate, membershipType)
      ensures maxLoanLimit == LoanLimit(membershipType)
      ensures loanCount == SearchCount(table, LoanDomain(partnerId))
      ensures overdueCount == SearchCount(table, OverdueDomain(partnerId))
      ensures 0 <= overdueCount <= loanCount
    {
      memberNumber := IrSequence.AssignName(vals.memberNumber, next);
      partnerId := vals.partnerId;
      active := true;
      membershipDate := Some(if vals.membershipDate.Some? then vals.membershipDate.value else today);
      membershipType := if vals.membershipType.Some? then vals.membershipType.value else Standard;
      loanCount := SearchCount(table, LoanDomain(vals.partnerId));
      overdueCount := SearchCount(table, OverdueDomain(vals.partnerId));
      NarrowedDomainCountsFewer(table, vals.partnerId, BookLoan.Overdue);
      new;
      expiryDate := ExpiryDate(membershipDate, membershipType);
      maxLoanLimit := LoanLimit(membershipType);
    }
  }

  /** `_compute_expiry_date` over a recordset. */
  method ComputeExpiryDate(members: seq<Member>)
    modifies members`expiryDate
    ensures forall m :: m in members ==> m.expiryDate == ExpiryDate(m.membershipDate, m.membershipType)
  {
    var i := 0;
    while i < |members|
      invariant 0 <= i <= |members|
      invariant forall m :: m in members[..i] ==> m.expiryDate == ExpiryDate(m.membershipDate, m.membershipType)
    {
      var member := members[i];
      member.expiryDate := ExpiryDate(member.membershipDate, member.membershipType);
      i := i + 1;
    }
  }

  /** `_compute_loan_limit` over a recordset. */
  method ComputeLoanLimit(members: seq<Member>)
    modifies members`maxLoanLimit
    ensures forall m :: m in members ==> m.maxLoanLimit == LoanLimit(m.membershipType)
  {
    var i := 0;
    while i < |members|
      invariant 0 <= i <= |members|
      invariant forall m :: m in members[..i] ==> m.maxLoanLimit == LoanLimit(m.membershipType)
    {
      var member := members[i];
      member.maxLoanLimit := LoanLimit(member.membershipType);
      i := i + 1;
    }
  }

  /** The member's two counts are those of the loan table, the overdue one no larger. */
  predicate CountsCurrent(m: Member, table: seq<BookLoan.Loan>)
    reads m, table
  {
    && m.loanCount == SearchCount(table, LoanDomain(m.partnerId))
    && m.overdueCount == SearchCount(table, OverdueDomain(m.partnerId))
    && 0 <= m.overdueCount <= m.loanCount
  }

  /**
   * `_compute_loan_count` over a recordset: each member counts its loans in
   * the table, and the overdue ones among them, which can never be more.
   */
  method ComputeLoanCount(members: seq<Member>, table: seq<BookLoan.Loan>)
    modifies members`loanCount, members`overdueCount
    ensures forall m :: m in members ==>
      && m.loanCount == SearchCount(table, LoanDomain(m.partnerId))
      && m.overdueCount == SearchCount(table, OverdueDomain(m.partnerId))
      && 0 <= m.overdueCount <= m.loanCount
  {
    var i := 0;
    while i < |members|
      invariant 0 <= i <= |members|
      invariant forall m :: m in members[..i] ==> CountsCurrent(m, table)
    {
      var member := members[i];
      var loanDomain := LoanDomain(member.partnerId);
      member.loanCount := SearchCount(table, loanDomain);
      member.overdueCount := SearchCount(table, OverdueDomain(member.partnerId));
      NarrowedDomainCountsFewer(table, member.partnerId, BookLoan.Overdue);
      i := i + 1;
    }
    assert members[..i] == members;
  }
}
