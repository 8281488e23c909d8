/** Investor store operations: list, and create with an exact investor-type match. */
module InvestorService {
  import opened Wrappers
  import opened Tables
  import opened Errors
  import opened Domain
  import opened Transformers

  /** An investor to create; the type is still the wire label. */
  datatype CreateInvestorInput = CreateInvestorInput(name: string, investorType: string, email: string)

  /** Every investor, newest first. */
  function List(db: Db): (r: seq<Investor>)
    ensures multiset(r) == multiset(db.investors)
    ensures SortedDesc(r, InvestorCreatedAt)
  {
    SortDesc(db.investors, InvestorCreatedAt)
  }

  /**
   * The exact mapping from wire label to stored type: no trimming, no case
   * folding, and the enum name "FamilyOffice" itself is not a label.
   */
  function ParseInvestorType(text: string): (r: Result<InvestorType, AppError>)
    ensures r.Ok? ==> InvestorTypeLabel(r.value) == text
    ensures r.Err? ==> r.error == InvalidInvestorType(text)
  {
    if text == "Individual" then Ok(Individual)
    else if text == "Institution" then Ok(Institution)
    else if text == "Family Office" then Ok(FamilyOffice)
    else Err(InvalidInvestorType(text))
  }

  /** The exact mapping is the inverse of the wire rendering, in both directions. */
  lemma ParseInvestorTypeInverse(text: string, t: InvestorType)
    ensures ParseInvestorType(text) == Ok(t) <==> InvestorTypeLabel(t) == text
  {
  }

  /** Whatever the exact mapping accepts, the lenient transformer accepts with the same result. */
  lemma ExactAgreesWithLenient(text: string)
    requires ParseInvestorType(text).Ok?
    ensures InvestorTypeFromApi(text) == ParseInvestorType(text)
  {
    InvestorTypeRoundTrip(ParseInvestorType(text).value);
  }

  /** The converse fails: the enum name "FamilyOffice" is rejected here but accepted by the transformer. */
  lemma EnumNameIsNotALabel()
    ensures ParseInvestorType("FamilyOffice").Err?
    ensures InvestorTypeFromApi("FamilyOffice") == Ok(FamilyOffice)
  {
    var s := "FamilyOffice";
    assert s != "Individual" && s != "Institution" && s != "Family Office";
    StripWhitespaceIdentity(s);
    assert StripWhitespace(s) == "FamilyOffice";
  }

  /**
   * Inserts an investor under the generated id `freshId`, created at `now`.
   * An unknown type label throws before anything is stored; an email or id
   * that is already taken violates a unique column and nothing is inserted.
   */
  function Create(db: Db, input: CreateInvestorInput, freshId: Id, now: int): (r: Tx<Investor>)
    ensures ParseInvestorType(input.investorType).Err? ==>
      r == Tx(Err(InvalidInvestorType(input.investorType)), db)
    ensures (ParseInvestorType(input.investorType).Ok? && HasKey(db.investors, InvestorEmail, input.email)) ==>
      r == Tx(Err(UniqueViolationError()), db)
    ensures (ParseInvestorType(input.investorType).Ok? && HasKey(db.investors, InvestorId, freshId)) ==>
      r == Tx(Err(UniqueViolationError()), db)
    ensures r.result.Err? ==> r.db == db
    ensures r.result.Ok? ==>
      var i := r.result.value;
      && r.db == db.(investors := db.investors + [i])
      && i.id == freshId && i.createdAt == now && i.name == input.name && i.email == input.email
      && InvestorTypeLabel(i.investorType) == input.investorType
    ensures r.result.Ok? <==>
      && ParseInvestorType(input.investorType).Ok?
      && !HasKey(db.investors, InvestorEmail, input.email)
      && !HasKey(db.investors, InvestorId, freshId)
  {
    match ParseInvestorType(input.investorType)
    case Err(e) => Tx(Err(e), db)
    case Ok(t) =>
      if IndexOf(db.investors, InvestorEmail, input.email).Some?
         || IndexOf(db.investors, InvestorId, freshId).Some? then
        Tx(Err(UniqueViolationError()), db)
      else
        var i := Investor(freshId, input.name, t, input.email, now);
        Tx(Ok(i), db.(investors := db.investors + [i]))
  }

  /** Creating an investor keeps the store's constraints. */
  lemma CreatePreservesValid(db: Db, input: CreateInvestorInput, freshId: Id, now: int)
    requires Valid(db)
    ensures Valid(Create(db, input, freshId, now).db)
  {
    var r := Create(db, input, freshId, now);
    if r.result.Ok? {
      AppendKeepsUnique(db.investors, InvestorId, r.result.value);
      AppendKeepsUnique(db.investors, InvestorEmail, r.result.value);
      forall i | 0 <= i < |db.investments|
        ensures HasKey(r.db.investors, InvestorId, db.investments[i].investorId)
      {
        AppendKeepsKey(db.investors, InvestorId, r.result.value, db.investments[i].investorId);
      }
    }
  }

  /** A second investor with an email already on file is refused and changes nothing. */
  lemma DuplicateEmailRefused(db: Db, input: CreateInvestorInput, freshId: Id, now: int, existing: Investor)
    requires existing in db.investors && existing.email == input.email
    ensures Create(db, input, freshId, now).db == db
    ensures Create(db, input, freshId, now).result.Err?
    ensures ParseInvestorType(input.investorType).Ok? ==>
      Create(db, input, freshId, now).result == Err(UniqueViolationError())
  {
    var k :| 0 <= k < |db.investors| && db.investors[k] == existing;
    assert InvestorEmail(db.investors[k]) == input.email;
  }
}
