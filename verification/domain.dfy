/**
 * The domain entity (internal/domain/company.go): the company record as its
 * callers use it, with optional fields, and the CompanyType enumeration.
 */
module Domain {
  import opened Wrappers

  /** A UUID, represented by the text `uuid.UUID.String()` renders for it. */
  type Uuid = string

  /** The all-zero UUID (`uuid.Nil`, equal to the zero value `uuid.UUID{}`). */
  const NilUuid: Uuid := "00000000-0000-0000-0000-000000000000"

  /** A reading of an abstract clock; 0 stands for Go's zero `time.Time`. */
  type Time = nat

  const ZeroTime: Time := 0

  /** CompanyType is a `uint8`: every byte value is a CompanyType, not only the four named ones. */
  newtype CompanyType = x: int | 0 <= x < 256

  const Corporations: CompanyType := 0
  const NonProfit: CompanyType := 1
  const Cooperative: CompanyType := 2
  const SoleProprietorship: CompanyType := 3

  /** One of the four named constants. */
  predicate IsKnown(ct: CompanyType) {
    ct <= SoleProprietorship
  }

  /** The four names `String` can render. */
  const CanonicalNames: set<string> := {"Corporations", "NonProfit", "Cooperative", "SoleProprietorship"}

  /** `CompanyType.String`: the canonical name of a known value, "" for every other byte. */
  function String(ct: CompanyType): (s: string)
    ensures s == "" <==> !IsKnown(ct)
    ensures IsKnown(ct) ==> s in CanonicalNames
    ensures ct == SoleProprietorship <==> s == "SoleProprietorship"
  {
    if ct == Corporations then "Corporations"
    else if ct == NonProfit then "NonProfit"
    else if ct == Cooperative then "Cooperative"
    else if ct == SoleProprietorship then "SoleProprietorship"
    else ""
  }

  /** Distinct known values render to distinct names. */
  lemma StringInjective(a: CompanyType, b: CompanyType)
    requires IsKnown(a) && IsKnown(b)
    requires String(a) == String(b)
    ensures a == b
  {
  }

  /** Every value outside 0..3 renders as the empty string. */
  lemma StringOutsideRange(ct: CompanyType)
    requires ct > SoleProprietorship
    ensures String(ct) == ""
  {
  }

  /**
   * The exact, case-sensitive inverse of `String`: the parser the callers of
   * `GetCompTypeFromString` evidently rely on. `GetCompTypeFromString` is
   * not part of this model; every other member takes the parser as a
   * parameter `parse`.
   */
  function ParseCanonical(s: string): (r: Option<CompanyType>)
    ensures r.Some? <==> s in CanonicalNames
    ensures r.Some? ==> IsKnown(r.value) && String(r.value) == s
  {
    if s == "Corporations" then Some(Corporations)
    else if s == "NonProfit" then Some(NonProfit)
    else if s == "Cooperative" then Some(Cooperative)
    else if s == "SoleProprietorship" then Some(SoleProprietorship)
    else None
  }

  /** Rendering a known value and parsing it back gives the value again. */
  lemma CanonicalRoundTrip(ct: CompanyType)
    requires IsKnown(ct)
    ensures ParseCanonical(String(ct)) == Some(ct)
  {
  }

  /** No CompanyType, known or not, renders as the spaced name the tests send. */
  lemma SpacedNameNeverRendered(ct: CompanyType)
    ensures String(ct) != "Sole Proprietorship"
  {
  }

  /**
   * What the creation tests assert of the parser: each type string they send
   * is accepted and `String` renders it back unchanged.
   */
  predicate RoundTripsAsTested(parse: string -> Option<CompanyType>) {
    && parse("Corporations").Some? && String(parse("Corporations").value) == "Corporations"
    && parse("NonProfit").Some? && String(parse("NonProfit").value) == "NonProfit"
    && parse("Cooperative").Some? && String(parse("Cooperative").value) == "Cooperative"
    && parse("Sole Proprietorship").Some? && String(parse("Sole Proprietorship").value) == "Sole Proprietorship"
  }

  /** No parser at all satisfies the tests' round trip, because of the spaced name. */
  lemma TestedRoundTripUnsatisfiable(parse: string -> Option<CompanyType>)
    ensures !RoundTripsAsTested(parse)
  {
    if parse("Sole Proprietorship").Some? {
      SpacedNameNeverRendered(parse("Sole Proprietorship").value);
    }
  }

  /**
   * The company record as every caller uses it: optional attributes are
   * nil-able pointers, and the record carries both timestamps.
   */
  datatype Company = Company(
    id: Uuid,
    name: string,
    description: Option<string>,
    employeesNumber: Option<int>,
    isRegistered: Option<bool>,
    companyType: Option<CompanyType>,
    updatedAt: Time,
    createdAt: Time)

  /** Go's zero value `domain.Company{}`. */
  const EmptyCompany: Company := Company(NilUuid, "", None, None, None, None, ZeroTime, ZeroTime)

  /** Every optional attribute is present. */
  predicate Populated(c: Company) {
    c.description.Some? && c.employeesNumber.Some? && c.isRegistered.Some? && c.companyType.Some?
  }
}
