/**
 * The stored entities and the in-memory picture of the relational store:
 * three tables kept as sequences of rows in insertion order. Generated ids
 * and creation timestamps are supplied by the caller of each operation.
 */
module Domain {
  import opened Wrappers
  import opened Tables
  import opened Amounts
  import opened Errors

  type Id = string

  datatype FundStatus = Fundraising | Investing | Closed

  datatype InvestorType = Individual | Institution | FamilyOffice

  datatype Fund = Fund(
    id: Id,
    name: string,
    vintageYear: int,
    targetSizeUsd: Money,
    status: FundStatus,
    createdAt: int)

  datatype Investor = Investor(
    id: Id,
    name: string,
    investorType: InvestorType,
    email: string,
    createdAt: int)

  datatype Investment = Investment(
    id: Id,
    investorId: Id,
    fundId: Id,
    amountUsd: Money,
    investmentDate: string,
    createdAt: int)

  // Column accessors, passed to the generic table helpers.
  function FundId(f: Fund): string { f.id }
  function FundCreatedAt(f: Fund): int { f.createdAt }
  function InvestorId(i: Investor): string { i.id }
  function InvestorEmail(i: Investor): string { i.email }
  function InvestorCreatedAt(i: Investor): int { i.createdAt }
  function InvestmentId(i: Investment): string { i.id }
  function InvestmentCreatedAt(i: Investment): int { i.createdAt }

  datatype Db = Db(funds: seq<Fund>, investors: seq<Investor>, investments: seq<Investment>)

  /**
   * The constraints the store enforces: primary keys are unique, investor
   * emails are unique, and every investment refers to an existing fund and
   * an existing investor.
   */
  ghost predicate Valid(db: Db) {
    && UniqueKeys(db.funds, FundId)
    && UniqueKeys(db.investors, InvestorId)
    && UniqueKeys(db.investors, InvestorEmail)
    && UniqueKeys(db.investments, InvestmentId)
    && (forall i :: 0 <= i < |db.investments| ==>
          HasKey(db.funds, FundId, db.investments[i].fundId)
          && HasKey(db.investors, InvestorId, db.investments[i].investorId))
  }

  /** What a service call returns and the state of the store afterwards. */
  datatype Tx<T> = Tx(result: Result<T, AppError>, db: Db)

  /** The storage layer's answer to an insert that violates a unique column. */
  function UniqueViolationError(): AppError {
    Storage(UniqueViolation, "Unique constraint failed")
  }

  /** Appending a row keeps a column unique when the new key is not yet present. */
  lemma AppendKeepsUnique<T>(s: seq<T>, key: T -> string, x: T)
    requires UniqueKeys(s, key)
    requires !HasKey(s, key, key(x))
    ensures UniqueKeys(s + [x], key)
  {
    var t := s + [x];
    forall i, j | 0 <= i < j < |t|
      ensures key(t[i]) != key(t[j])
    {
      if j == |s| {
        assert t[i] == s[i];
      }
    }
  }

  /** A key present before an append is still present after it. */
  lemma AppendKeepsKey<T>(s: seq<T>, key: T -> string, x: T, k: string)
    requires HasKey(s, key, k)
    ensures HasKey(s + [x], key, k)
  {
    var i :| 0 <= i < |s| && key(s[i]) == k;
    assert (s + [x])[i] == s[i];
  }
}
