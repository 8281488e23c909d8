/** Fund store operations: list, lookup, create with a default status, and overwrite. */
module FundService {
  import opened Wrappers
  import opened Tables
  import opened Amounts
  import opened Errors
  import opened Domain

  /** A fund to create; the status may be omitted. */
  datatype CreateFundInput = CreateFundInput(
    name: string,
    vintageYear: int,
    targetSizeUsd: Money,
    status: Option<FundStatus>)

  /** A full replacement of a fund's editable fields. */
  datatype UpdateFundInput = UpdateFundInput(
    id: Id,
    name: string,
    vintageYear: int,
    targetSizeUsd: Money,
    status: FundStatus)

  /** Every fund, newest first. */
  function List(db: Db): (r: seq<Fund>)
    ensures multiset(r) == multiset(db.funds)
    ensures SortedDesc(r, FundCreatedAt)
  {
    SortDesc(db.funds, FundCreatedAt)
  }

  /** The fund with the given id, if there is one. */
  function GetById(db: Db, id: Id): (r: Option<Fund>)
    ensures r.Some? <==> HasKey(db.funds, FundId, id)
    ensures r.Some? ==> r.value.id == id && r.value in db.funds
  {
    Find(db.funds, FundId, id)
  }

  /**
   * Inserts a fund under the generated id `freshId`, created at `now`. A
   * fund without a status starts as Fundraising. An id that is already taken
   * violates the primary key and nothing is inserted.
   */
  function Create(db: Db, input: CreateFundInput, freshId: Id, now: int): (r: Tx<Fund>)
    ensures HasKey(db.funds, FundId, freshId) ==> r == Tx(Err(UniqueViolationError()), db)
    ensures !HasKey(db.funds, FundId, freshId) ==>
      r.result.Ok? && r.db == db.(funds := db.funds + [r.result.value])
    ensures r.result.Ok? ==>
      var f := r.result.value;
      && f.id == freshId && f.createdAt == now
      && f.name == input.name && f.vintageYear == input.vintageYear
      && f.targetSizeUsd == input.targetSizeUsd
    ensures r.result.Ok? && input.status.None? ==> r.result.value.status == Fundraising
    ensures r.result.Ok? && input.status.Some? ==> r.result.value.status == input.status.value
  {
    if IndexOf(db.funds, FundId, freshId).Some? then
      Tx(Err(UniqueViolationError()), db)
    else
      var status := match input.status case Some(s) => s case None => Fundraising;
      var f := Fund(freshId, input.name, input.vintageYear, input.targetSizeUsd, status, now);
      Tx(Ok(f), db.(funds := db.funds + [f]))
  }

  /** The storage layer's answer to updating a row that does not exist. */
  function MissingRecordError(): AppError {
    Storage(RecordNotFound, "Record to update not found")
  }

  /**
   * Overwrites name, vintage year, target size and status of the fund with
   * the given id. Any status may follow any other; there is no transition
   * rule. A missing fund is a storage error and nothing changes.
   */
  function Update(db: Db, input: UpdateFundInput): (r: Tx<Fund>)
    ensures !HasKey(db.funds, FundId, input.id) ==> r == Tx(Err(MissingRecordError()), db)
    ensures HasKey(db.funds, FundId, input.id) ==>
      && r.result.Ok?
      && r.db.investors == db.investors && r.db.investments == db.investments
      && |r.db.funds| == |db.funds|
      && (forall i :: 0 <= i < |db.funds| && db.funds[i].id != input.id ==> r.db.funds[i] == db.funds[i])
      && (exists i :: 0 <= i < |db.funds| && db.funds[i].id == input.id
            && r.db.funds[i] == r.result.value
            && r.result.value.createdAt == db.funds[i].createdAt)
    ensures r.result.Ok? ==>
      var f := r.result.value;
      && f.id == input.id && f.name == input.name && f.vintageYear == input.vintageYear
      && f.targetSizeUsd == input.targetSizeUsd && f.status == input.status
  {
    match IndexOf(db.funds, FundId, input.id)
    case None => Tx(Err(MissingRecordError()), db)
    case Some(i) =>
      var old_ := db.funds[i];
      var f := Fund(old_.id, input.name, input.vintageYear, input.targetSizeUsd, input.status, old_.createdAt);
      Tx(Ok(f), db.(funds := db.funds[i := f]))
  }

  /** Creating a fund keeps the store's constraints. */
  lemma CreatePreservesValid(db: Db, input: CreateFundInput, freshId: Id, now: int)
    requires Valid(db)
    ensures Valid(Create(db, input, freshId, now).db)
  {
    var r := Create(db, input, freshId, now);
    if r.result.Ok? {
      AppendKeepsUnique(db.funds, FundId, r.result.value);
      forall i | 0 <= i < |db.investments|
        ensures HasKey(r.db.funds, FundId, db.investments[i].fundId)
      {
        AppendKeepsKey(db.funds, FundId, r.result.value, db.investments[i].fundId);
      }
    }
  }

  /** Updating a fund keeps the store's constraints: ids, and so references, are untouched. */
  lemma UpdatePreservesValid(db: Db, input: UpdateFundInput)
    requires Valid(db)
    ensures Valid(Update(db, input).db)
  {
    var r := Update(db, input);
    if r.result.Ok? {
      assert forall i :: 0 <= i < |db.funds| ==> r.db.funds[i].id == db.funds[i].id;
      forall i | 0 <= i < |db.investments|
        ensures HasKey(r.db.funds, FundId, db.investments[i].fundId)
      {
        var j :| 0 <= j < |db.funds| && db.funds[j].id == db.investments[i].fundId;
        assert r.db.funds[j].id == db.investments[i].fundId;
      }
    }
  }

  /** After a successful update, looking the fund up yields the new version. */
  lemma GetAfterUpdate(db: Db, input: UpdateFundInput)
    requires Valid(db)
    requires HasKey(db.funds, FundId, input.id)
    ensures Update(db, input).result.Ok?
    ensures GetById(Update(db, input).db, input.id) == Some(Update(db, input).result.value)
  {
    var r := Update(db, input);
    UpdatePreservesValid(db, input);
    var i :| 0 <= i < |db.funds| && db.funds[i].id == input.id && r.db.funds[i] == r.result.value;
    FindUnique(r.db.funds, FundId, input.id, i);
  }
}
