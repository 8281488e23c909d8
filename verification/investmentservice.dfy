/**
 * Investment operations: the listing of one fund's investments, and the
 * guarded creation that runs inside a single transaction.
 */
module InvestmentService {
  import opened Wrappers
  import opened Tables
  import opened Amounts
  import opened Errors
  import opened Domain

  /** An investment to create in the fund named by the request path. */
  datatype CreateInvestmentInput = CreateInvestmentInput(investorId: Id, amountUsd: Money, investmentDate: string)

  const FundNotFound: string := "Fund not found"
  const InvestorNotFound: string := "Investor not found"
  const FundClosed: string := "Cannot invest in a closed fund"

  /**
   * The runtime's reading of an investment date: `new Date(s)` rendered back
   * with `toISOString().split('T')[0]`. None is an Invalid Date; otherwise
   * the value is the calendar day stored, which differs from `s` when the
   * parser rolls an overflowing day into the next month.
   */
  type DateParser = string -> Option<string>

  /**
   * The storage client's refusal of an `investmentDate` that is an Invalid
   * Date. It carries no storage code, so the error handler answers 500.
   */
  function InvalidDateError(): AppError {
    Plain("Invalid value for argument `investmentDate`: Invalid Date")
  }

  /** Does the investment belong to fund `fundId`? */
  function InFund(fundId: Id): Investment -> bool {
    (i: Investment) => i.fundId == fundId
  }

  /** The investments of fund `fundId`, newest first. */
  function ListByFund(db: Db, fundId: Id): (r: seq<Investment>)
    ensures forall i :: 0 <= i < |r| ==> r[i].fundId == fundId && r[i] in db.investments
    ensures forall i :: 0 <= i < |db.investments| && db.investments[i].fundId == fundId ==>
      db.investments[i] in r
    ensures SortedDesc(r, InvestmentCreatedAt)
    ensures multiset(r) == multiset(Filter(db.investments, InFund(fundId)))
  {
    var mine := Filter(db.investments, InFund(fundId));
    var r := SortDesc(mine, InvestmentCreatedAt);
    SameMembers(r, mine);
    r
  }

  /** Is the fund open to new investments? Only Closed is refused. */
  predicate AcceptsInvestments(f: Fund) {
    f.status != Closed
  }

  /**
   * Creates an investment in fund `fundId` under the generated id `freshId`,
   * created at `now`. Inside one transaction it checks, in this order: the
   * fund exists, the fund is not Closed, the investor exists; only then does
   * it insert. The date stored is the day `parseDate` reads from the input;
   * when it reads an Invalid Date, the storage client refuses the insert. Any failure rolls the transaction back, so the store is unchanged.
   */
  function Create(db: Db, fundId: Id, input: CreateInvestmentInput, parseDate: DateParser, freshId: Id, now: int)
    : (r: Tx<Investment>)
    ensures !HasKey(db.funds, FundId, fundId) ==> r == Tx(Err(NotFound(FundNotFound)), db)
    ensures HasKey(db.funds, FundId, fundId) && Find(db.funds, FundId, fundId).value.status == Closed ==>
      r == Tx(Err(BusinessRule(FundClosed)), db)
    ensures (HasKey(db.funds, FundId, fundId) && AcceptsInvestments(Find(db.funds, FundId, fundId).value)
             && !HasKey(db.investors, InvestorId, input.investorId)) ==>
      r == Tx(Err(NotFound(InvestorNotFound)), db)
    ensures (HasKey(db.funds, FundId, fundId) && AcceptsInvestments(Find(db.funds, FundId, fundId).value)
             && HasKey(db.investors, InvestorId, input.investorId) && parseDate(input.investmentDate).None?) ==>
      r == Tx(Err(InvalidDateError()), db)
    ensures (HasKey(db.funds, FundId, fundId) && AcceptsInvestments(Find(db.funds, FundId, fundId).value)
             && HasKey(db.investors, InvestorId, input.investorId) && parseDate(input.investmentDate).Some?
             && HasKey(db.investments, InvestmentId, freshId)) ==>
      r == Tx(Err(UniqueViolationError()), db)
    ensures r.result.Err? ==> r.db == db
    ensures r.result.Ok? ==>
      && parseDate(input.investmentDate).Some?
      && r.result.value ==
         Investment(freshId, input.investorId, fundId, input.amountUsd, parseDate(input.investmentDate).value, now)
      && r.db == db.(investments := db.investments + [r.result.value])
    ensures r.result.Ok? <==>
      && HasKey(db.funds, FundId, fundId)
      && AcceptsInvestments(Find(db.funds, FundId, fundId).value)
      && HasKey(db.investors, InvestorId, input.investorId)
      && parseDate(input.investmentDate).Some?
      && !HasKey(db.investments, InvestmentId, freshId)
  {
    match Find(db.funds, FundId, fundId)
    case None => Tx(Err(NotFound(FundNotFound)), db)
    case Some(fund) =>
      if fund.status == Closed then Tx(Err(BusinessRule(FundClosed)), db)
      else if Find(db.investors, InvestorId, input.investorId).None? then
        Tx(Err(NotFound(InvestorNotFound)), db)
      else if parseDate(input.investmentDate).None? then Tx(Err(InvalidDateError()), db)
      else if Find(db.investments, InvestmentId, freshId).Some? then
        Tx(Err(UniqueViolationError()), db)
      else
        var investment :=
          Investment(freshId, input.investorId, fundId, input.amountUsd, parseDate(input.investmentDate).value, now);
        Tx(Ok(investment), db.(investments := db.investments + [investment]))
  }

  /** Creating an investment keeps the store's constraints: both references were checked. */
  lemma CreatePreservesValid(db: Db, fundId: Id, input: CreateInvestmentInput, parseDate: DateParser, freshId: Id, now: int)
    requires Valid(db)
    ensures Valid(Create(db, fundId, input, parseDate, freshId, now).db)
  {
    var r := Create(db, fundId, input, parseDate, freshId, now);
    if r.result.Ok? {
      AppendKeepsUnique(db.investments, InvestmentId, r.result.value);
    }
  }

  /**
   * A closed fund refuses every investment, whichever investor is named and
   * whatever the date, even when that investor does not exist, and its
   * investments stay as they were.
   */
  lemma ClosedFundRefuses(db: Db, fund: Fund, input: CreateInvestmentInput, parseDate: DateParser, freshId: Id, now: int)
    requires Valid(db)
    requires fund in db.funds && fund.status == Closed
    ensures Create(db, fund.id, input, parseDate, freshId, now).result == Err(BusinessRule(FundClosed))
    ensures ListByFund(Create(db, fund.id, input, parseDate, freshId, now).db, fund.id) == ListByFund(db, fund.id)
  {
    var k :| 0 <= k < |db.funds| && db.funds[k] == fund;
    FindUnique(db.funds, FundId, fund.id, k);
  }

  /**
   * A fund that is Fundraising or Investing accepts any existing investor,
   * for a date the runtime parses and a fresh id.
   */
  lemma OpenFundAccepts(db: Db, fund: Fund, input: CreateInvestmentInput, parseDate: DateParser, freshId: Id, now: int)
    requires Valid(db)
    requires fund in db.funds && fund.status != Closed
    requires HasKey(db.investors, InvestorId, input.investorId)
    requires parseDate(input.investmentDate).Some?
    requires !HasKey(db.investments, InvestmentId, freshId)
    ensures Create(db, fund.id, input, parseDate, freshId, now).result.Ok?
  {
    var k :| 0 <= k < |db.funds| && db.funds[k] == fund;
    FindUnique(db.funds, FundId, fund.id, k);
  }

  /**
   * Round trip: after a successful creation, the fund's listing holds
   * exactly the rows it held before plus the new investment, and the
   * listing of every other fund is unchanged as a collection.
   */
  lemma ListAfterCreate(db: Db, fundId: Id, input: CreateInvestmentInput, parseDate: DateParser, freshId: Id, now: int, other: Id)
    requires Create(db, fundId, input, parseDate, freshId, now).result.Ok?
    ensures var r := Create(db, fundId, input, parseDate, freshId, now);
      multiset(ListByFund(r.db, fundId)) == multiset(ListByFund(db, fundId)) + multiset{r.result.value}
    ensures other != fundId ==>
      multiset(ListByFund(Create(db, fundId, input, parseDate, freshId, now).db, other)) == multiset(ListByFund(db, other))
  {
    var r := Create(db, fundId, input, parseDate, freshId, now);
    var x := r.result.value;
    FilterAppend(db.investments, x, InFund(fundId));
    FilterAppend(db.investments, x, InFund(other));
  }
}
