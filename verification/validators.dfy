/**
 * The request schemas: which parsed JSON bodies each write route accepts and
 * the typed input it hands to the service. E-mail and UUID syntax are left to
 * the caller-supplied predicates in `Checks`.
 */
module Validators {
  import opened Wrappers
  import opened Amounts
  import opened Errors
  import opened Domain
  import FundService
  import InvestorService
  import InvestmentService

  /** A parsed JSON value. */
  datatype Json =
    | JNull
    | JBool(b: bool)
    | JNum(n: real)
    | JStr(s: string)
    | JArray(items: seq<Json>)
    | JObject(fields: map<string, Json>)

  /** The string-format checks the schemas delegate. */
  datatype Checks = Checks(isEmail: string -> bool, isUuid: string -> bool)

  /** The member `name` of an object body; absent for a missing key or a non-object body. */
  function Field(body: Json, name: string): Option<Json> {
    if body.JObject? && name in body.fields then Some(body.fields[name]) else None
  }

  /** `z.string().min(1)` */
  predicate IsNonEmptyString(v: Option<Json>) {
    v.Some? && v.value.JStr? && |v.value.s| >= 1
  }

  /** `z.number().int().min(lo).max(hi)` */
  predicate IsIntInRange(v: Option<Json>, lo: int, hi: int) {
    v.Some? && v.value.JNum? && v.value.n.Floor as real == v.value.n && lo as real <= v.value.n <= hi as real
  }

  /** `z.number().positive()` */
  predicate IsPositive(v: Option<Json>) {
    v.Some? && v.value.JNum? && v.value.n > 0.0
  }

  /** `fundStatusSchema`: the three status names, each naming its own status. */
  function ParseFundStatus(s: string): (r: Option<FundStatus>)
    ensures r.Some? <==> s in {"Fundraising", "Investing", "Closed"}
    ensures r == Some(Fundraising) <==> s == "Fundraising"
    ensures r == Some(Investing) <==> s == "Investing"
    ensures r == Some(Closed) <==> s == "Closed"
  {
    if s == "Fundraising" then Some(Fundraising)
    else if s == "Investing" then Some(Investing)
    else if s == "Closed" then Some(Closed)
    else None
  }

  predicate IsFundStatus(v: Option<Json>) {
    v.Some? && v.value.JStr? && ParseFundStatus(v.value.s).Some?
  }

  /** `investorTypeSchema`: the three wire labels. */
  predicate IsInvestorTypeLabel(v: Option<Json>) {
    v.Some? && v.value.JStr? && v.value.s in {"Individual", "Institution", "Family Office"}
  }

  predicate IsFormattedString(v: Option<Json>, format: string -> bool) {
    v.Some? && v.value.JStr? && format(v.value.s)
  }

  // ----- The date pattern ^\d{4}-\d{2}-\d{2}$ -----

  /** One element of a pattern: a character class. */
  datatype CharClass = DigitClass | Literal(c: char)

  /** A character class repeated exactly `count` times. */
  datatype Piece = Piece(cls: CharClass, count: nat)

  /** `^\d{4}-\d{2}-\d{2}$` */
  const DatePattern: seq<Piece> :=
    [Piece(DigitClass, 4), Piece(Literal('-'), 1), Piece(DigitClass, 2), Piece(Literal('-'), 1), Piece(DigitClass, 2)]

  /** JavaScript `\d` (without the `u` flag) is the ASCII digits only. */
  predicate ClassMatches(cls: CharClass, c: char) {
    match cls
    case DigitClass => IsDigit(c)
    case Literal(l) => c == l
  }

  /** Does the whole of `s` match the anchored pattern? (`$` without the `m` flag ends the input.) */
  predicate MatchesAnchored(s: string, pat: seq<Piece>)
    decreases |pat|
  {
    if |pat| == 0 then |s| == 0
    else
      && |s| >= pat[0].count
      && (forall i :: 0 <= i < pat[0].count ==> ClassMatches(pat[0].cls, s[i]))
      && MatchesAnchored(s[pat[0].count..], pat[1..])
  }

  /** The date shape by position: ten characters, digits except for '-' at 4 and 7. */
  predicate IsDateShape(s: string) {
    && |s| == 10
    && s[4] == '-' && s[7] == '-'
    && (forall i :: 0 <= i < 10 && i != 4 && i != 7 ==> IsDigit(s[i]))
  }

  /** The pattern accepts exactly the strings of the date shape; month and day ranges are not checked. */
  lemma DatePatternIsShape(s: string)
    ensures MatchesAnchored(s, DatePattern) <==> IsDateShape(s)
  {
  }

  lemma DateExamples()
    ensures IsDateShape("2024-03-15")
    ensures !IsDateShape("2024/03/15")
    ensures IsDateShape("2024-13-45")
  {
  }

  // ----- Schemas -----

  /** The names of the fields that fail their checks, in schema order. */
  function Issues(checks: seq<(string, bool)>): (r: seq<string>)
    ensures |r| == 0 <==> forall i :: 0 <= i < |checks| ==> checks[i].1
  {
    if |checks| == 0 then []
    else (if checks[0].1 then [] else [checks[0].0]) + Issues(checks[1..])
  }

  /** A body that is not an object fails as a whole. */
  const NotAnObject: seq<string> := ["(root)"]

  /** `fundCreateSchema`: the status may be absent and then defaults to Fundraising. */
  function ValidateFundCreate(body: Json): (r: Result<FundService.CreateFundInput, AppError>)
    ensures r.Ok? <==>
      && body.JObject?
      && IsNonEmptyString(Field(body, "name"))
      && IsIntInRange(Field(body, "vintage_year"), 1900, 2100)
      && IsPositive(Field(body, "target_size_usd"))
      && (Field(body, "status").None? || IsFundStatus(Field(body, "status")))
    ensures r.Ok? ==>
      && JStr(r.value.name) == Field(body, "name").value
      && JNum(r.value.vintageYear as real) == Field(body, "vintage_year").value
      && JNum(r.value.targetSizeUsd) == Field(body, "target_size_usd").value
      && r.value.status.Some?
      && (Field(body, "status").None? ==> r.value.status.value == Fundraising)
      && (Field(body, "status").Some? ==>
            ParseFundStatus(Field(body, "status").value.s) == r.value.status)
    ensures r.Err? ==> r.error.kind.ValidationKind?
  {
    if !body.JObject? then Err(Invalid(NotAnObject))
    else
      var name := Field(body, "name");
      var year := Field(body, "vintage_year");
      var target := Field(body, "target_size_usd");
      var status := Field(body, "status");
      var checksPass := IsNonEmptyString(name)
        && IsIntInRange(year, 1900, 2100)
        && IsPositive(target)
        && (status.None? || IsFundStatus(status));
      if !checksPass then
        Err(Invalid(Issues([
          ("name", IsNonEmptyString(name)),
          ("vintage_year", IsIntInRange(year, 1900, 2100)),
          ("target_size_usd", IsPositive(target)),
          ("status", status.None? || IsFundStatus(status))])))
      else
        var s := if status.None? then Fundraising else ParseFundStatus(status.value.s).value;
        Ok(FundService.CreateFundInput(name.value.s, year.value.n.Floor, target.value.n, Some(s)))
  }

  /** `fundUpdateSchema`: every field is required, the status included. */
  function ValidateFundUpdate(body: Json, checks: Checks): (r: Result<FundService.UpdateFundInput, AppError>)
    ensures r.Ok? <==>
      && body.JObject?
      && IsFormattedString(Field(body, "id"), checks.isUuid)
      && IsNonEmptyString(Field(body, "name"))
      && IsIntInRange(Field(body, "vintage_year"), 1900, 2100)
      && IsPositive(Field(body, "target_size_usd"))
      && IsFundStatus(Field(body, "status"))
    ensures r.Ok? ==>
      && JStr(r.value.id) == Field(body, "id").value
      && JStr(r.value.name) == Field(body, "name").value
      && JNum(r.value.vintageYear as real) == Field(body, "vintage_year").value
      && JNum(r.value.targetSizeUsd) == Field(body, "target_size_usd").value
      && ParseFundStatus(Field(body, "status").value.s) == Some(r.value.status)
    ensures r.Err? ==> r.error.kind.ValidationKind?
  {
    if !body.JObject? then Err(Invalid(NotAnObject))
    else
      var id := Field(body, "id");
      var name := Field(body, "name");
      var year := Field(body, "vintage_year");
      var target := Field(body, "target_size_usd");
      var status := Field(body, "status");
      var checksPass := IsFormattedString(id, checks.isUuid)
        && IsNonEmptyString(name)
        && IsIntInRange(year, 1900, 2100)
        && IsPositive(target)
        && IsFundStatus(status);
      if !checksPass then
        Err(Invalid(Issues([
          ("id", IsFormattedString(id, checks.isUuid)),
          ("name", IsNonEmptyString(name)),
          ("vintage_year", IsIntInRange(year, 1900, 2100)),
          ("target_size_usd", IsPositive(target)),
          ("status", IsFundStatus(status))])))
      else
        Ok(FundService.UpdateFundInput(
          id.value.s, name.value.s, year.value.n.Floor, target.value.n, ParseFundStatus(status.value.s).value))
  }

  /** `investorCreateSchema` */
  function ValidateInvestorCreate(body: Json, checks: Checks): (r: Result<InvestorService.CreateInvestorInput, AppError>)
    ensures r.Ok? <==>
      && body.JObject?
      && IsNonEmptyString(Field(body, "name"))
      && IsInvestorTypeLabel(Field(body, "investor_type"))
      && IsFormattedString(Field(body, "email"), checks.isEmail)
    ensures r.Ok? ==>
      && JStr(r.value.name) == Field(body, "name").value
      && JStr(r.value.investorType) == Field(body, "investor_type").value
      && JStr(r.value.email) == Field(body, "email").value
    ensures r.Err? ==> r.error.kind.ValidationKind?
  {
    if !body.JObject? then Err(Invalid(NotAnObject))
    else
      var name := Field(body, "name");
      var kind := Field(body, "investor_type");
      var email := Field(body, "email");
      var checksPass := IsNonEmptyString(name)
        && IsInvestorTypeLabel(kind)
        && IsFormattedString(email, checks.isEmail);
      if !checksPass then
        Err(Invalid(Issues([
          ("name", IsNonEmptyString(name)),
          ("investor_type", IsInvestorTypeLabel(kind)),
          ("email", IsFormattedString(email, checks.isEmail))])))
      else Ok(InvestorService.CreateInvestorInput(name.value.s, kind.value.s, email.value.s))
  }

  /** `investmentCreateSchema` */
  function ValidateInvestmentCreate(body: Json, checks: Checks)
    : (r: Result<InvestmentService.CreateInvestmentInput, AppError>)
    ensures r.Ok? <==>
      && body.JObject?
      && IsFormattedString(Field(body, "investor_id"), checks.isUuid)
      && IsPositive(Field(body, "amount_usd"))
      && IsFormattedString(Field(body, "investment_date"), s => MatchesAnchored(s, DatePattern))
    ensures r.Ok? ==>
      && JStr(r.value.investorId) == Field(body, "investor_id").value
      && JNum(r.value.amountUsd) == Field(body, "amount_usd").value
      && JStr(r.value.investmentDate) == Field(body, "investment_date").value
      && IsDateShape(r.value.investmentDate)
    ensures r.Err? ==> r.error.kind.ValidationKind?
  {
    if !body.JObject? then Err(Invalid(NotAnObject))
    else
      var investor := Field(body, "investor_id");
      var amount := Field(body, "amount_usd");
      var date := Field(body, "investment_date");
      var checksPass := IsFormattedString(investor, checks.isUuid)
        && IsPositive(amount)
        && IsFormattedString(date, s => MatchesAnchored(s, DatePattern));
      if !checksPass then
        Err(Invalid(Issues([
          ("investor_id", IsFormattedString(investor, checks.isUuid)),
          ("amount_usd", IsPositive(amount)),
          ("investment_date", IsFormattedString(date, s => MatchesAnchored(s, DatePattern)))])))
      else
        DatePatternIsShape(date.value.s);
        Ok(InvestmentService.CreateInvestmentInput(investor.value.s, amount.value.n, date.value.s))
  }

  /** An accepted investor type label is exactly one the service's mapping knows. */
  lemma InvestorTypeLabelsAgree(text: string)
    ensures IsInvestorTypeLabel(Some(JStr(text))) <==> InvestorService.ParseInvestorType(text).Ok?
  {
  }
}
