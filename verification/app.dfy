/**
 * The write routes and the orchestration around them: each route validates
 * its body, calls its service, and renders the result or, through the error
 * handler, the error; the idempotency cache wraps the whole route.
 */
module App {
  import opened Wrappers
  import opened Tables
  import opened Errors
  import opened ErrorHandler
  import opened Domain
  import opened Transformers
  import opened Validators
  import opened Idempotency
  import FundService
  import InvestorService
  import InvestmentService

  /** A JSON response body. */
  datatype Payload =
    | FundOut(fund: FundApi)
    | InvestorOut(investor: InvestorApi)
    | InvestmentOut(investment: InvestmentApi)
    | Failure(error: ErrorBody)

  /** The write endpoints. */
  datatype WriteRequest =
    | PostFund(body: Json)
    | PutFund(body: Json)
    | PostInvestor(body: Json)
    | PostInvestment(fundId: string, body: Json)

  /**
   * Deployment settings, the format checks the schemas delegate, and the
   * runtime's reading of an investment date.
   */
  datatype Env = Env(checks: Checks, parseDate: InvestmentService.DateParser, production: bool)

  /** The status and body a route sends, and the store afterwards. */
  datatype Outcome = Outcome(status: int, body: Payload, db: Db)

  /** The store and the idempotency cache together. */
  datatype System = System(db: Db, cache: Store<Payload>)

  /** A thrown error as the error handler writes it; the store is as the failed call left it. */
  function Fail(e: AppError, env: Env, db: Db): (o: Outcome)
    ensures o.db == db
    ensures o.status == Classify(e, env.production).status
    ensures o.body == Failure(Classify(e, env.production).body)
  {
    var resp := Classify(e, env.production);
    Outcome(resp.status, Failure(resp.body), db)
  }

  /** A successful service call as `status` with the rendered row, or its error. */
  function Render<T>(tx: Tx<T>, status: int, render: T -> Payload, env: Env): Outcome {
    match tx.result
    case Ok(v) => Outcome(status, render(v), tx.db)
    case Err(e) => Fail(e, env, tx.db)
  }

  function RenderFund(f: Fund): Payload { FundOut(FundToApi(f)) }
  function RenderInvestor(i: Investor): Payload { InvestorOut(InvestorToApi(i)) }
  function RenderInvestment(i: Investment): Payload { InvestmentOut(InvestmentToApi(i)) }

  /**
   * `o` answers a service call: the call's value rendered under `status`
   * with the store the call left, or the call's error as the error handler
   * writes it, with the store as it was before the call.
   */
  ghost predicate Answers<T>(o: Outcome, db: Db, tx: Tx<T>, status: int, render: T -> Payload, env: Env) {
    match tx.result
    case Ok(v) => o == Outcome(status, render(v), tx.db)
    case Err(e) => o == Fail(e, env, db)
  }

  /**
   * Runs one write route against the store. `freshId` and `now` stand for
   * the id and timestamp the store would generate for an inserted row.
   * A schema error is answered before the service runs; otherwise the
   * answer is the service's, 201 for a creation and 200 for the update.
   */
  function Route(db: Db, req: WriteRequest, env: Env, freshId: Id, now: int): (o: Outcome)
    ensures !o.body.Failure? ==> o.status == (if req.PutFund? then 200 else 201)
    ensures o.body.Failure? ==> o.db == db
    ensures req.PostFund? ==>
      var v := ValidateFundCreate(req.body);
      if v.Err? then o == Fail(v.error, env, db)
      else Answers(o, db, FundService.Create(db, v.value, freshId, now), 201, RenderFund, env)
    ensures req.PutFund? ==>
      var v := ValidateFundUpdate(req.body, env.checks);
      if v.Err? then o == Fail(v.error, env, db)
      else Answers(o, db, FundService.Update(db, v.value), 200, RenderFund, env)
    ensures req.PostInvestor? ==>
      var v := ValidateInvestorCreate(req.body, env.checks);
      if v.Err? then o == Fail(v.error, env, db)
      else Answers(o, db, InvestorService.Create(db, v.value, freshId, now), 201, RenderInvestor, env)
    ensures req.PostInvestment? && req.fundId == "" ==>
      o == Outcome(400, Failure(ErrorBody("Fund ID required", NoDetail)), db)
    ensures req.PostInvestment? && req.fundId != "" ==>
      var v := ValidateInvestmentCreate(req.body, env.checks);
      if v.Err? then o == Fail(v.error, env, db)
      else Answers(o, db, InvestmentService.Create(db, req.fundId, v.value, env.parseDate, freshId, now),
                   201, RenderInvestment, env)
  {
    match req
    case PostFund(body) =>
      (match ValidateFundCreate(body)
       case Err(e) => Fail(e, env, db)
       case Ok(input) => Render(FundService.Create(db, input, freshId, now), 201, RenderFund, env))
    case PutFund(body) =>
      (match ValidateFundUpdate(body, env.checks)
       case Err(e) => Fail(e, env, db)
       case Ok(input) => Render(FundService.Update(db, input), 200, RenderFund, env))
    case PostInvestor(body) =>
      (match ValidateInvestorCreate(body, env.checks)
       case Err(e) => Fail(e, env, db)
       case Ok(input) => Render(InvestorService.Create(db, input, freshId, now), 201, RenderInvestor, env))
    case PostInvestment(fundId, body) =>
      if fundId == "" then Outcome(400, Failure(ErrorBody("Fund ID required", NoDetail)), db)
      else
        match ValidateInvestmentCreate(body, env.checks)
        case Err(e) => Fail(e, env, db)
        case Ok(input) =>
          Render(InvestmentService.Create(db, fundId, input, env.parseDate, freshId, now), 201, RenderInvestment, env)
  }

  /**
   * One write request through the idempotency cache and, unless it is
   * replayed, through its route. The cache sees it exactly as the abstract
   * cache step does, with the route's status and body as the write's result;
   * the route's effect on the store happens only when the cache does not replay.
   */
  function Serve(sys: System, req: WriteRequest, key: Option<string>, env: Env, freshId: Id, now: int)
    : (r: (Response<Payload>, System))
    ensures var o := Route(sys.db, req, env, freshId, now);
      && (r.0, r.1.cache) == Step(sys.cache, now, key, o.status, o.body)
      && r.1.db == (if Check(sys.cache, now, key).Replay? then sys.db else o.db)
  {
    match Check(sys.cache, now, key)
    case PassThrough =>
      var o := Route(sys.db, req, env, freshId, now);
      (Response(o.status, o.body, None), System(o.db, sys.cache))
    case Replay(response) => (response, sys)
    case Proceed(store, k) =>
      var o := Route(sys.db, req, env, freshId, now);
      var (response, cache) := Respond(store, k, now, o.status, o.body);
      (response, System(o.db, cache))
  }

  /** Every request keeps the store's constraints. */
  lemma ServePreservesValid(sys: System, req: WriteRequest, key: Option<string>, env: Env, freshId: Id, now: int)
    requires Valid(sys.db)
    ensures Valid(Serve(sys, req, key, env, freshId, now).1.db)
  {
    if !Check(sys.cache, now, key).Replay? {
      RoutePreservesValid(sys.db, req, env, freshId, now);
    }
  }

  lemma RoutePreservesValid(db: Db, req: WriteRequest, env: Env, freshId: Id, now: int)
    requires Valid(db)
    ensures Valid(Route(db, req, env, freshId, now).db)
  {
    match req
    case PostFund(body) =>
      if ValidateFundCreate(body).Ok? {
        FundService.CreatePreservesValid(db, ValidateFundCreate(body).value, freshId, now);
      }
    case PutFund(body) =>
      if ValidateFundUpdate(body, env.checks).Ok? {
        FundService.UpdatePreservesValid(db, ValidateFundUpdate(body, env.checks).value);
      }
    case PostInvestor(body) =>
      if ValidateInvestorCreate(body, env.checks).Ok? {
        InvestorService.CreatePreservesValid(db, ValidateInvestorCreate(body, env.checks).value, freshId, now);
      }
    case PostInvestment(fundId, body) =>
      if fundId != "" && ValidateInvestmentCreate(body, env.checks).Ok? {
        InvestmentService.CreatePreservesValid(
          db, fundId, ValidateInvestmentCreate(body, env.checks).value, env.parseDate, freshId, now);
      }
  }

  /**
   * Two requests with the same key, the second within the lifetime of the
   * record the first created: the second gets the first's status and body,
   * and its write does not run, so the store is as the first left it.
   * The second request may carry a different body, id and timestamp.
   */
  lemma DuplicateRequestRunsOnce(
    sys: System, req1: WriteRequest, req2: WriteRequest, k: string, env: Env,
    id1: Id, id2: Id, t1: int, t2: int)
    requires k != "" && k !in sys.cache
    requires t1 <= t2 <= t1 + TtlMs
    ensures var (r1, sys1) := Serve(sys, req1, Some(k), env, id1, t1);
      var (r2, sys2) := Serve(sys1, req2, Some(k), env, id2, t2);
      && r2 == r1
      && sys2 == sys1
      && sys1.db == Route(sys.db, req1, env, id1, t1).db
  {
    var o1 := Route(sys.db, req1, env, id1, t1);
    var (r1, sys1) := Serve(sys, req1, Some(k), env, id1, t1);
    var o2 := Route(sys1.db, req2, env, id2, t2);
    FreshKeyReplayedForLifetime(sys.cache, t1, t2, k, o1.status, o1.body, o2.status, o2.body);
  }

  /**
   * Error responses are recorded like any other: a first request under a
   * fresh key that fails leaves the key bound to its error response, and
   * during the record's lifetime a retry under that key, even with a
   * corrected body, gets the error replayed and changes nothing.
   */
  lemma FailedAttemptIsReplayed(
    sys: System, req1: WriteRequest, req2: WriteRequest, k: string, env: Env,
    id1: Id, id2: Id, t1: int, t2: int)
    requires k != "" && k !in sys.cache
    requires t1 <= t2 <= t1 + TtlMs
    requires Route(sys.db, req1, env, id1, t1).body.Failure?
    ensures var o1 := Route(sys.db, req1, env, id1, t1);
      var (r1, sys1) := Serve(sys, req1, Some(k), env, id1, t1);
      && sys1.db == sys.db
      && sys1.cache == sys.cache[k := Record(o1.status, o1.body, t1 + TtlMs)]
      && Serve(sys1, req2, Some(k), env, id2, t2) == (Response(o1.status, o1.body, Some(k)), sys1)
  {
    DuplicateRequestRunsOnce(sys, req1, req2, k, env, id1, id2, t1, t2);
  }

  /**
   * A closed fund refuses an investment through the route, with or without
   * a key: the answer is 400 with the business-rule message, and the fund's
   * investments are unchanged.
   */
  lemma ClosedFundRouteRefuses(sys: System, fund: Fund, body: Json, key: Option<string>, env: Env, freshId: Id, now: int)
    requires Valid(sys.db)
    requires fund in sys.db.funds && fund.status == Closed && fund.id != ""
    requires ValidateInvestmentCreate(body, env.checks).Ok?
    requires !Check(sys.cache, now, key).Replay?
    ensures var (response, sys') := Serve(sys, PostInvestment(fund.id, body), key, env, freshId, now);
      && response.status == 400
      && response.body == Failure(ErrorBody(InvestmentService.FundClosed, NoDetail))
      && sys'.db == sys.db
  {
    var input := ValidateInvestmentCreate(body, env.checks).value;
    InvestmentService.ClosedFundRefuses(sys.db, fund, input, env.parseDate, freshId, now);
  }

  /**
   * Creating a fund twice under one key: both answers are the same 201 with
   * the rendered fund, and the store gains exactly that one fund, built from
   * the validated body with the first request's id and timestamp.
   */
  lemma IdempotentFundCreation(sys: System, body: Json, k: string, env: Env, id1: Id, id2: Id, t1: int, t2: int)
    requires k != "" && k !in sys.cache
    requires t1 <= t2 <= t1 + TtlMs
    requires ValidateFundCreate(body).Ok?
    requires !HasKey(sys.db.funds, FundId, id1)
    ensures var (r1, sys1) := Serve(sys, PostFund(body), Some(k), env, id1, t1);
      var (r2, sys2) := Serve(sys1, PostFund(body), Some(k), env, id2, t2);
      var input := ValidateFundCreate(body).value;
      var f := Fund(id1, input.name, input.vintageYear, input.targetSizeUsd, input.status.value, t1);
      && r1 == r2 && r1.status == 201
      && r1.body == FundOut(FundToApi(f))
      && sys2.db == sys.db.(funds := sys.db.funds + [f])
  {
    DuplicateRequestRunsOnce(sys, PostFund(body), PostFund(body), k, env, id1, id2, t1, t2);
  }

  /**
   * Closing a fund through an update and then investing in it: the update
   * succeeds whatever the previous status, and the investment is refused
   * without touching the store.
   */
  lemma CloseThenInvestRefused(
    db: Db, update: FundService.UpdateFundInput, input: InvestmentService.CreateInvestmentInput,
    parseDate: InvestmentService.DateParser, freshId: Id, now: int)
    requires Valid(db)
    requires HasKey(db.funds, FundId, update.id) && update.status == Closed
    ensures FundService.Update(db, update).result.Ok?
    ensures var db1 := FundService.Update(db, update).db;
      InvestmentService.Create(db1, update.id, input, parseDate, freshId, now) ==
        Tx(Err(BusinessRule(InvestmentService.FundClosed)), db1)
  {
    FundService.GetAfterUpdate(db, update);
  }

  /**
   * A date of the right shape that the runtime parses to an Invalid Date,
   * such as "2024-13-45", passes the schema, but the storage client refuses
   * the insert with an error that carries no code: the answer is 500 and the
   * transaction leaves the store as it was.
   */
  lemma ImpossibleDateRefused(
    sys: System, fund: Fund, body: Json, key: Option<string>, env: Env, freshId: Id, now: int)
    requires Valid(sys.db)
    requires fund in sys.db.funds && fund.status != Closed && fund.id != ""
    requires ValidateInvestmentCreate(body, env.checks).Ok?
    requires var input := ValidateInvestmentCreate(body, env.checks).value;
      HasKey(sys.db.investors, InvestorId, input.investorId) && env.parseDate(input.investmentDate).None?
    requires !Check(sys.cache, now, key).Replay?
    ensures var (response, sys') := Serve(sys, PostInvestment(fund.id, body), key, env, freshId, now);
      && response.status == 500
      && response.body.Failure? && response.body.error.error == InternalError
      && sys'.db == sys.db
  {
    var k :| 0 <= k < |sys.db.funds| && sys.db.funds[k] == fund;
    FindUnique(sys.db.funds, FundId, fund.id, k);
  }

  /**
   * The investment date answered is the day the runtime read, not the text
   * sent: a date whose day overflows its month, such as "2024-02-30", is
   * stored and answered as the following month's day when the runtime
   * reads it so.
   */
  lemma ParsedDateAnswered(
    sys: System, fund: Fund, body: Json, key: Option<string>, env: Env, freshId: Id, now: int, day: string)
    requires Valid(sys.db)
    requires fund in sys.db.funds && fund.status != Closed && fund.id != ""
    requires ValidateInvestmentCreate(body, env.checks).Ok?
    requires var input := ValidateInvestmentCreate(body, env.checks).value;
      HasKey(sys.db.investors, InvestorId, input.investorId) && env.parseDate(input.investmentDate) == Some(day)
    requires !HasKey(sys.db.investments, InvestmentId, freshId)
    requires !Check(sys.cache, now, key).Replay?
    ensures var (response, sys') := Serve(sys, PostInvestment(fund.id, body), key, env, freshId, now);
      && response.status == 201
      && response.body.InvestmentOut?
      && response.body.investment.investmentDate == day
      && sys'.db.investments == sys.db.investments + [Investment(freshId,
           ValidateInvestmentCreate(body, env.checks).value.investorId, fund.id,
           ValidateInvestmentCreate(body, env.checks).value.amountUsd, day, now)]
  {
    var k :| 0 <= k < |sys.db.funds| && sys.db.funds[k] == fund;
    FindUnique(sys.db.funds, FundId, fund.id, k);
  }

  /**
   * Without the cache in front of the routes, the key is ignored: the same
   * fund creation sent twice creates two funds and answers with two
   * different rows.
   */
  lemma UnmountedCreatesTwice(db: Db, body: Json, env: Env, id1: Id, id2: Id, t1: int, t2: int)
    requires ValidateFundCreate(body).Ok?
    requires id1 != id2 && !HasKey(db.funds, FundId, id1) && !HasKey(db.funds, FundId, id2)
    ensures var o1 := Route(db, PostFund(body), env, id1, t1);
      var o2 := Route(o1.db, PostFund(body), env, id2, t2);
      && o1.status == 201 && o2.status == 201
      && o1.body != o2.body
      && |o2.db.funds| == |db.funds| + 2
  {
    var o1 := Route(db, PostFund(body), env, id1, t1);
    var f1 := o1.db.funds[|db.funds|];
    assert o1.db.funds == db.funds + [f1];
  }
}
