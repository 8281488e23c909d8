/**
 * Conversions between stored rows and their JSON (snake_case) rendering,
 * and the lenient parsing of an investor-type text.
 */
module Transformers {
  import opened Wrappers
  import opened Amounts
  import opened Errors
  import opened Domain

  datatype FundApi = FundApi(
    id: string,
    name: string,
    vintageYear: int,
    targetSizeUsd: string,
    status: FundStatus,
    createdAt: int)

  datatype InvestorApi = InvestorApi(
    id: string,
    name: string,
    investorType: string,
    email: string,
    createdAt: int)

  datatype InvestmentApi = InvestmentApi(
    id: string,
    investorId: string,
    fundId: string,
    amountUsd: string,
    investmentDate: string)

  /** The stored enum value's own name. */
  function EnumName(t: InvestorType): string {
    match t
    case Individual => "Individual"
    case Institution => "Institution"
    case FamilyOffice => "FamilyOffice"
  }

  /** The text an investor type has on the wire: the enum name, except "Family Office". */
  function InvestorTypeLabel(t: InvestorType): (s: string)
    ensures t == FamilyOffice ==> s == "Family Office"
    ensures t != FamilyOffice ==> s == EnumName(t)
  {
    if t == FamilyOffice then "Family Office" else EnumName(t)
  }

  function FundToApi(f: Fund): (r: FundApi)
    ensures r.id == f.id && r.name == f.name && r.vintageYear == f.vintageYear
    ensures r.status == f.status && r.createdAt == f.createdAt
    ensures IsTwoDecimal(r.targetSizeUsd)
    ensures ParseCents(r.targetSizeUsd) == Some(Cents(f.targetSizeUsd))
  {
    FundApi(f.id, f.name, f.vintageYear, FormatAmount(f.targetSizeUsd), f.status, f.createdAt)
  }

  function InvestorToApi(i: Investor): (r: InvestorApi)
    ensures r.id == i.id && r.name == i.name && r.email == i.email && r.createdAt == i.createdAt
    ensures r.investorType == InvestorTypeLabel(i.investorType)
  {
    InvestorApi(i.id, i.name, InvestorTypeLabel(i.investorType), i.email, i.createdAt)
  }

  function InvestmentToApi(i: Investment): (r: InvestmentApi)
    ensures r.id == i.id && r.investorId == i.investorId && r.fundId == i.fundId
    ensures r.investmentDate == i.investmentDate
    ensures IsTwoDecimal(r.amountUsd)
    ensures ParseCents(r.amountUsd) == Some(Cents(i.amountUsd))
  {
    InvestmentApi(i.id, i.investorId, i.fundId, FormatAmount(i.amountUsd), i.investmentDate)
  }

  /** The characters the JavaScript class `\s` matches. */
  predicate IsJsWhitespace(c: char) {
    var n := c as int;
    || n == 0x09 || n == 0x0A || n == 0x0B || n == 0x0C || n == 0x0D || n == 0x20
    || n == 0x00A0 || n == 0x1680 || (0x2000 <= n <= 0x200A)
    || n == 0x2028 || n == 0x2029 || n == 0x202F || n == 0x205F || n == 0x3000 || n == 0xFEFF
  }

  /** `s.replace(/\s+/g, '')`: `s` with every whitespace character removed. */
  function StripWhitespace(s: string): (r: string)
    ensures |r| <= |s|
    ensures forall i :: 0 <= i < |r| ==> !IsJsWhitespace(r[i])
  {
    if |s| == 0 then ""
    else if IsJsWhitespace(s[0]) then StripWhitespace(s[1..])
    else [s[0]] + StripWhitespace(s[1..])
  }

  /** Removing whitespace works piecewise on a concatenation. */
  lemma {:induction false} StripWhitespaceAppend(a: string, b: string)
    ensures StripWhitespace(a + b) == StripWhitespace(a) + StripWhitespace(b)
  {
    if |a| == 0 {
      assert a + b == b;
    } else {
      assert (a + b)[0] == a[0];
      assert (a + b)[1..] == a[1..] + b;
      StripWhitespaceAppend(a[1..], b);
    }
  }

  /** A string without whitespace is left as it is. */
  lemma {:induction false} StripWhitespaceIdentity(s: string)
    requires forall i :: 0 <= i < |s| ==> !IsJsWhitespace(s[i])
    ensures StripWhitespace(s) == s
  {
    if |s| > 0 {
      StripWhitespaceIdentity(s[1..]);
    }
  }

  /** The error thrown for a text that names no investor type. */
  function InvalidInvestorType(text: string): AppError {
    Plain("Invalid investor type: " + text)
  }

  /**
   * `transformInvestorTypeFromApi`: strips all whitespace, then accepts the
   * three enum names. The comparison with "Family Office" that follows the
   * stripping can never succeed (see `SpacedLabelNeverSeen`).
   */
  function InvestorTypeFromApi(text: string): (r: Result<InvestorType, AppError>)
    ensures r.Ok? <==> StripWhitespace(text) in {"FamilyOffice", "Institution", "Individual"}
    ensures r.Ok? ==> EnumName(r.value) == StripWhitespace(text)
    ensures r.Err? ==> r.error == InvalidInvestorType(text)
  {
    SpacedLabelNeverSeen(text);
    var normalised := StripWhitespace(text);
    if normalised == "FamilyOffice" || normalised == "Family Office" then Ok(FamilyOffice)
    else if normalised == "Institution" then Ok(Institution)
    else if normalised == "Individual" then Ok(Individual)
    else Err(InvalidInvestorType(text))
  }

  /** After stripping whitespace the text can never be "Family Office", which contains a space. */
  lemma SpacedLabelNeverSeen(text: string)
    ensures StripWhitespace(text) != "Family Office"
  {
    assert IsJsWhitespace("Family Office"[6]);
  }

  /** Any spacing of "Family Office" parses as `FamilyOffice`. */
  lemma {:induction false} SpacedFamilyOffice(pre: string, mid: string, post: string)
    requires forall i :: 0 <= i < |pre| ==> IsJsWhitespace(pre[i])
    requires forall i :: 0 <= i < |mid| ==> IsJsWhitespace(mid[i])
    requires forall i :: 0 <= i < |post| ==> IsJsWhitespace(post[i])
    ensures InvestorTypeFromApi(pre + "Family" + mid + "Office" + post) == Ok(FamilyOffice)
  {
    var s := pre + "Family" + mid + "Office" + post;
    AllWhitespaceStripsToEmpty(pre);
    AllWhitespaceStripsToEmpty(mid);
    AllWhitespaceStripsToEmpty(post);
    StripWhitespaceIdentity("Family");
    StripWhitespaceIdentity("Office");
    calc {
      StripWhitespace(s);
      { StripWhitespaceAppend(pre + "Family" + mid + "Office", post); }
      StripWhitespace(pre + "Family" + mid + "Office") + "";
      { StripWhitespaceAppend(pre + "Family" + mid, "Office"); }
      StripWhitespace(pre + "Family" + mid) + "Office";
      { StripWhitespaceAppend(pre + "Family", mid); }
      StripWhitespace(pre + "Family") + "" + "Office";
      { StripWhitespaceAppend(pre, "Family"); }
      "" + "Family" + "" + "Office";
      "FamilyOffice";
    }
  }

  lemma {:induction false} AllWhitespaceStripsToEmpty(s: string)
    requires forall i :: 0 <= i < |s| ==> IsJsWhitespace(s[i])
    ensures StripWhitespace(s) == ""
  {
    if |s| > 0 {
      AllWhitespaceStripsToEmpty(s[1..]);
    }
  }

  /** Round trip: the wire text of every investor type parses back to that type. */
  lemma {:induction false} InvestorTypeRoundTrip(t: InvestorType)
    ensures InvestorTypeFromApi(InvestorTypeLabel(t)) == Ok(t)
  {
    match t
    case FamilyOffice =>
      SpacedFamilyOffice("", " ", "");
      assert "" + "Family" + " " + "Office" + "" == "Family Office";
    case Institution =>
      StripWhitespaceIdentity("Institution");
    case Individual =>
      StripWhitespaceIdentity("Individual");
  }

  /** Round trip through the investor rendering. */
  lemma InvestorRoundTrip(i: Investor)
    ensures InvestorTypeFromApi(InvestorToApi(i).investorType) == Ok(i.investorType)
  {
    InvestorTypeRoundTrip(i.investorType);
  }
}
