/**
 * The repository (internal/repositories/db/company.go) over an abstract
 * store: the companies table as a map from name to row. The SQL text and
 * its execution are replaced by the map; what remains is the branching on
 * driver outcomes and the error values the repository returns.
 */
module Gateway {
  import opened Wrappers
  import opened Domain
  import opened Errors
  import opened DbModel
  import opened PatchQuery

  /** The companies table, keyed by its unique `name` column. */
  type Store = map<string, Model>

  /** Every row is filed under its own name. */
  predicate Keyed(s: Store) {
    forall k :: k in s ==> s[k].name == k
  }

  /** A Go `(value, error)` return together with the table after the call. */
  datatype Answer<T> = Answer(store: Store, value: T, err: Option<Error>)

  /** A Go `error` return together with the table after the call. */
  datatype Effect = Effect(store: Store, err: Option<Error>)

  // ---------------------------------------------------------------- Insert

  /**
   * Insert's classification of a failed INSERT: a `*pq.Error` with SQLSTATE
   * 23505 becomes DuplicateKey; every other error is returned unchanged.
   */
  function ClassifyInsertError(e: DriverError): (r: Error)
    ensures r == DuplicateKey <==> e == PqError(UniqueViolation)
    ensures r != DuplicateKey ==> r == Driver(e)
  {
    if e.PqError? && e.code == UniqueViolation then DuplicateKey else Driver(e)
  }

  /** The INSERT itself: the injected driver failure, else the unique constraint on `name`. */
  function InsertRow(s: Store, m: Model, fault: Option<DriverError>): Result<Store, DriverError> {
    if fault.Some? then Failure(fault.value)
    else if m.name in s then Failure(PqError(UniqueViolation))
    else Success(s[m.name := m])
  }

  /**
   * `Insert`: converts the record, inserts it with `updated_at` from the
   * clock and `created_at` set by the table, and returns the id the table
   * generated (`freshId`). `fault` is a driver failure the INSERT may meet.
   */
  function Insert(s: Store, d: Company, now: Time, freshId: Uuid, fault: Option<DriverError>): (r: Answer<Uuid>)
    requires Populated(d)
    ensures r.err.None? <==> fault.None? && d.name !in s
    ensures r.err.None? ==> r.value == freshId
    ensures r.err.None? ==> r.store.Keys == s.Keys + {d.name}
    ensures r.err.None? ==> forall k :: k in s ==> r.store[k] == s[k]
    ensures r.err.None? ==> var row := r.store[d.name];
      && row.id == freshId && row.name == d.name
      && Some(row.description) == d.description && Some(row.employeesNumber) == d.employeesNumber
      && Some(row.isRegistered) == d.isRegistered && Some(row.companyType) == d.companyType
      && row.createdAt == now && row.updatedAt == now
    ensures r.err.Some? ==> r.store == s && r.value == NilUuid
    ensures fault.None? && d.name in s ==> r.err == Some(DuplicateKey)
    ensures fault.Some? ==> r.err == Some(ClassifyInsertError(fault.value))
    ensures Keyed(s) ==> Keyed(r.store)
  {
    var m := ModelConverter(d, now);
    match InsertRow(s, m.(id := freshId, createdAt := now), fault)
    case Failure(e) => Answer(s, NilUuid, Some(ClassifyInsertError(e)))
    case Success(s') => Answer(s', freshId, None)
  }

  // ------------------------------------------------------------- GetByName

  /** The single-row SELECT by name, as the driver reports it. */
  function QueryRowByName(s: Store, name: string, fault: Option<DriverError>): (r: Result<Model, DriverError>)
    ensures r.Success? <==> fault.None? && name in s
    ensures r.Success? ==> r.value == s[name]
    ensures fault.None? && name !in s ==> r == Failure(ErrNoRows)
    ensures fault.Some? ==> r == Failure(fault.value)
  {
    if fault.Some? then Failure(fault.value)
    else if name !in s then Failure(ErrNoRows)
    else Success(s[name])
  }

  /** The domain record GetByName builds from a row and its parsed type. */
  function ToCompany(m: Model, ct: CompanyType): (d: Company)
    ensures Populated(d)
    ensures d.id == m.id && d.name == m.name
    ensures d.description == Some(m.description) && d.employeesNumber == Some(m.employeesNumber)
    ensures d.isRegistered == Some(m.isRegistered) && d.companyType == Some(ct)
    ensures d.updatedAt == m.updatedAt && d.createdAt == m.createdAt
  {
    Company(m.id, m.name, Some(m.description), Some(m.employeesNumber), Some(m.isRegistered),
            Some(ct), m.updatedAt, m.createdAt)
  }

  /** Reading back a converted record restores every attribute but the timestamps. */
  lemma ConverterRoundTrip(d: Company, now: Time)
    requires Populated(d)
    ensures ToCompany(ModelConverter(d, now), d.companyType.value) == d.(updatedAt := now, createdAt := ZeroTime)
  {
  }

  /** The type column read back as text and parsed by `parse` (GetCompTypeFromString). */
  function ReadRow(m: Model, parse: string -> Option<CompanyType>): (r: Result<Company, Error>)
    ensures r.Success? <==> parse(String(m.companyType)).Some?
    ensures r.Failure? ==> r.error == UnknownCompanyType(String(m.companyType))
    ensures r.Success? ==> r.value == ToCompany(m, parse(String(m.companyType)).value)
  {
    var text := String(m.companyType);
    match parse(text)
    case None => Failure(UnknownCompanyType(text))
    case Some(ct) => Success(ToCompany(m, ct))
  }

  /**
   * `GetByName` as written: a scan failure, including `sql.ErrNoRows` for
   * a missing name, is returned unchanged with the empty record.
   */
  function GetByNameAsWritten(s: Store, name: string, parse: string -> Option<CompanyType>,
                              fault: Option<DriverError>): (r: Answer<Company>)
    ensures r.store == s
    ensures r.err.Some? ==> r.value == EmptyCompany
    ensures fault.None? && name !in s ==> r.err == Some(Driver(ErrNoRows))
    ensures fault.Some? ==> r.err == Some(Driver(fault.value))
  {
    match QueryRowByName(s, name, fault)
    case Failure(e) => Answer(s, EmptyCompany, Some(Driver(e)))
    case Success(m) =>
      match ReadRow(m, parse)
      case Failure(e) => Answer(s, EmptyCompany, Some(e))
      case Success(d) => Answer(s, d, None)
  }

  /** A missing name is not reported as NoRowsErr by the code as written. */
  lemma MissingNameNotNoRowsAsWritten(s: Store, name: string, parse: string -> Option<CompanyType>)
    requires name !in s
    ensures GetByNameAsWritten(s, name, parse, None).err != Some(NoRowsErr)
  {
  }

  /**
   * `GetByName` as its callers and tests expect it: `sql.ErrNoRows` becomes
   * NoRowsErr (the mapping PatchByName already applies); otherwise as written.
   */
  function GetByName(s: Store, name: string, parse: string -> Option<CompanyType>,
                     fault: Option<DriverError>): (r: Answer<Company>)
    ensures r.store == s
    ensures r.err.Some? ==> r.value == EmptyCompany
    ensures fault.None? && name !in s ==> r.err == Some(NoRowsErr)
    ensures fault.Some? && fault.value != ErrNoRows ==> r.err == Some(Driver(fault.value))
    ensures r.err == Some(NoRowsErr) <==> (fault.None? && name !in s) || fault == Some(ErrNoRows)
    ensures r.err.None? <==> fault.None? && name in s && parse(String(s[name].companyType)).Some?
    ensures r.err.None? ==> Populated(r.value) && r.value == ToCompany(s[name], parse(String(s[name].companyType)).value)
    ensures fault.None? && name in s && r.err.Some? ==> r.err == Some(UnknownCompanyType(String(s[name].companyType)))
  {
    var a := GetByNameAsWritten(s, name, parse, fault);
    if a.err == Some(Driver(ErrNoRows)) then a.(err := Some(NoRowsErr)) else a
  }

  // ---------------------------------------------------------- DeleteByName

  /** `DeleteByName`: an Exec failure is returned; zero affected rows is NoRowsErr. */
  function DeleteByName(s: Store, name: string, fault: Option<DriverError>): (r: Effect)
    ensures r.err.None? <==> fault.None? && name in s
    ensures r.err.None? ==> r.store == s - {name}
    ensures r.err.Some? ==> r.store == s
    ensures r.err == Some(NoRowsErr) <==> fault.None? && name !in s
    ensures fault.Some? ==> r.err == Some(Driver(fault.value))
    ensures Keyed(s) ==> Keyed(r.store)
  {
    if fault.Some? then Effect(s, Some(Driver(fault.value)))
    else if name !in s then Effect(s, Some(NoRowsErr))
    else Effect(s - {name}, None)
  }

  /** A second delete of the same name finds no row. */
  lemma DeleteTwice(s: Store, name: string)
    requires DeleteByName(s, name, None).err.None?
    ensures DeleteByName(DeleteByName(s, name, None).store, name, None).err == Some(NoRowsErr)
  {
  }

  // ----------------------------------------------------------- PatchByName

  /** Sets one column of `row` from the bound parameter values `v`. */
  function ApplyColumn(row: Model, c: Column, v: Model): (r: Model)
    ensures r.id == row.id && r.createdAt == row.createdAt
    ensures r.name == if c == NameColumn then v.name else row.name
    ensures r.description == if c == DescriptionColumn then v.description else row.description
    ensures r.isRegistered == if c == IsRegisteredColumn then v.isRegistered else row.isRegistered
    ensures r.employeesNumber == if c == EmployeesNumberColumn then v.employeesNumber else row.employeesNumber
    ensures r.companyType == if c == TypeColumn then v.companyType else row.companyType
    ensures r.updatedAt == if c == UpdatedAtColumn then v.updatedAt else row.updatedAt
  {
    match c
    case NameColumn => row.(name := v.name)
    case DescriptionColumn => row.(description := v.description)
    case IsRegisteredColumn => row.(isRegistered := v.isRegistered)
    case EmployeesNumberColumn => row.(employeesNumber := v.employeesNumber)
    case TypeColumn => row.(companyType := v.companyType)
    case UpdatedAtColumn => row.(updatedAt := v.updatedAt)
  }

  /** A column is in a non-empty plan iff it is the head or in the tail. */
  lemma HeadTail(plan: seq<Column>)
    requires plan != []
    ensures forall c :: c in plan <==> c == plan[0] || c in plan[1..]
  {
    assert plan == [plan[0]] + plan[1..];
  }

  /** The UPDATE's SET list applied to one row: a planned column takes its bound value, any other keeps its own. */
  function ApplyPlan(row: Model, plan: seq<Column>, v: Model): (r: Model)
    ensures r.id == row.id && r.createdAt == row.createdAt
    ensures r.name == if NameColumn in plan then v.name else row.name
    ensures r.description == if DescriptionColumn in plan then v.description else row.description
    ensures r.isRegistered == if IsRegisteredColumn in plan then v.isRegistered else row.isRegistered
    ensures r.employeesNumber == if EmployeesNumberColumn in plan then v.employeesNumber else row.employeesNumber
    ensures r.companyType == if TypeColumn in plan then v.companyType else row.companyType
    ensures r.updatedAt == if UpdatedAtColumn in plan then v.updatedAt else row.updatedAt
    decreases |plan|
  {
    if plan == [] then row
    else
      HeadTail(plan);
      ApplyPlan(ApplyColumn(row, plan[0], v), plan[1..], v)
  }

  /**
   * The UPDATE ... WHERE name = currentName: a driver failure, zero matching
   * rows, or a new name already taken by another row (the unique
   * constraint, whose error PatchByName returns unchanged) leave the table
   * as it was; otherwise the one matching row is rewritten and re-filed
   * under its new name.
   */
  function ExecutePatch(s: Store, plan: seq<Column>, v: Model, currentName: string,
                        fault: Option<DriverError>): (r: Effect)
    ensures fault.Some? ==> r == Effect(s, Some(Driver(fault.value)))
    ensures fault.None? && currentName !in s ==> r == Effect(s, Some(NoRowsErr))
    ensures r.err.Some? ==> r.store == s
    ensures fault.None? && currentName in s && r.err.Some? ==> r.err == Some(Driver(PqError(UniqueViolation)))
    ensures r.err.None? <==>
      && fault.None? && currentName in s
      && var n := ApplyPlan(s[currentName], plan, v).name; n == currentName || n !in s
    ensures r.err.None? ==> var row := ApplyPlan(s[currentName], plan, v);
      && r.store.Keys == s.Keys - {currentName} + {row.name}
      && r.store[row.name] == row
      && |r.store| == |s|
    ensures r.err.None? ==> forall k :: k in s && k != currentName ==> k in r.store && r.store[k] == s[k]
    ensures Keyed(s) ==> Keyed(r.store)
  {
    if fault.Some? then Effect(s, Some(Driver(fault.value)))
    else if currentName !in s then Effect(s, Some(NoRowsErr))
    else
      var row := ApplyPlan(s[currentName], plan, v);
      if row.name != currentName && row.name in s then Effect(s, Some(Driver(PqError(UniqueViolation))))
      else Effect((s - {currentName})[row.name := row], None)
  }

  /**
   * `PatchByName` as written: it binds the parameters through
   * `modelConverter`, so it is only defined on patches that supply all
   * four pointer fields (or that the builder rejects first).
   */
  function PatchByNameAsWritten(s: Store, d: Company, currentName: string, now: Time,
                                fault: Option<DriverError>): (r: Effect)
    requires PatchPlan(d).Failure? || Populated(d)
    ensures PatchPlan(d).Failure? ==> r == Effect(s, Some(InvalidArgumentsForBuildingquery))
  {
    match PatchPlan(d)
    case Failure(e) => Effect(s, Some(e))
    case Success(plan) => ExecutePatch(s, plan, ModelConverter(d, now), currentName, fault)
  }

  /** The name-only patch the rename test sends passes the builder but not the converter. */
  lemma RenamePatchOutsideConverter()
    ensures var d := EmptyCompany.(name := "test_patched3");
      PatchPlan(d).Success? && !Populated(d)
  {
  }

  /**
   * The parameter values a patch binds: the supplied ones, with a Go zero
   * value in the others. Only planned columns are read, so those zero
   * values never reach a row.
   */
  function BindPatch(d: Company, now: Time): (v: Model)
    ensures Populated(d) ==> v == ModelConverter(d, now)
    ensures v.name == d.name && v.updatedAt == now
    ensures d.description.Some? ==> v.description == d.description.value
    ensures d.employeesNumber.Some? ==> v.employeesNumber == d.employeesNumber.value
    ensures d.isRegistered.Some? ==> v.isRegistered == d.isRegistered.value
    ensures d.companyType.Some? ==> v.companyType == d.companyType.value
  {
    Model(d.id, d.name, d.description.GetOr(""), d.employeesNumber.GetOr(0),
          d.isRegistered.GetOr(false), d.companyType.GetOr(0), ZeroTime, now)
  }

  /** The row a patch should produce: each supplied attribute replaced, the rest kept, `updated_at` refreshed. */
  function Merged(row: Model, d: Company, now: Time): Model {
    Model(row.id,
          if d.name != "" then d.name else row.name,
          d.description.GetOr(row.description),
          d.employeesNumber.GetOr(row.employeesNumber),
          d.isRegistered.GetOr(row.isRegistered),
          d.companyType.GetOr(row.companyType),
          row.createdAt,
          now)
  }

  /** Applying exactly the supplied columns with the bound values yields the merged row. */
  lemma ApplySupplied(row: Model, plan: seq<Column>, d: Company, now: Time)
    requires forall c :: c in plan <==> Supplies(d, c)
    ensures ApplyPlan(row, plan, BindPatch(d, now)) == Merged(row, d, now)
  {
    assert NameColumn in plan <==> d.name != "";
    assert DescriptionColumn in plan <==> d.description.Some?;
    assert IsRegisteredColumn in plan <==> d.isRegistered.Some?;
    assert EmployeesNumberColumn in plan <==> d.employeesNumber.Some?;
    assert TypeColumn in plan <==> d.companyType.Some?;
    assert UpdatedAtColumn in plan;
  }

  /** Executing the plan column by column yields the merged row. */
  lemma PlanMerges(row: Model, d: Company, now: Time)
    requires PatchPlan(d).Success?
    ensures ApplyPlan(row, PatchPlan(d).value, BindPatch(d, now)) == Merged(row, d, now)
  {
    ApplySupplied(row, PatchPlan(d).value, d, now);
  }

  /**
   * `PatchByName`: builds the plan, then updates the row whose name is
   * `currentName` (never the new name) with exactly the planned columns.
   */
  function PatchByName(s: Store, d: Company, currentName: string, now: Time,
                       fault: Option<DriverError>): (r: Effect)
    ensures NoChange(d) ==> r == Effect(s, Some(InvalidArgumentsForBuildingquery))
    ensures r.err.Some? ==> r.store == s
    ensures !NoChange(d) && fault.None? && currentName !in s ==> r.err == Some(NoRowsErr)
    ensures !NoChange(d) && fault.Some? ==> r.err == Some(Driver(fault.value))
    ensures !NoChange(d) && fault.None? && currentName in s && r.err.Some?
            ==> r.err == Some(Driver(PqError(UniqueViolation)))
    ensures r.err.None? <==>
      && !NoChange(d) && fault.None? && currentName in s
      && var n := Merged(s[currentName], d, now).name; n == currentName || n !in s
    ensures r.err.None? ==> var row := Merged(s[currentName], d, now);
      r.store == (s - {currentName})[row.name := row]
    ensures r.err.None? ==> forall k :: k in s && k != currentName ==> k in r.store && r.store[k] == s[k]
    ensures Keyed(s) ==> Keyed(r.store)
  {
    match PatchPlan(d)
    case Failure(e) => Effect(s, Some(e))
    case Success(plan) =>
      assert currentName in s ==> ApplyPlan(s[currentName], plan, BindPatch(d, now)) == Merged(s[currentName], d, now) by {
        if currentName in s {
          PlanMerges(s[currentName], d, now);
        }
      }
      ExecutePatch(s, plan, BindPatch(d, now), currentName, fault)
  }

  /** Where the code as written is defined, it agrees with the corrected PatchByName. */
  lemma PatchAsWrittenAgrees(s: Store, d: Company, currentName: string, now: Time, fault: Option<DriverError>)
    requires Populated(d)
    ensures PatchByNameAsWritten(s, d, currentName, now, fault) == PatchByName(s, d, currentName, now, fault)
  {
  }

  /** A successful patch leaves `updated_at` at the patch time, after every earlier stamp of the row. */
  lemma PatchRefreshesUpdatedAt(s: Store, d: Company, currentName: string, now: Time)
    requires currentName in s && s[currentName].createdAt <= s[currentName].updatedAt <= now
    requires !NoChange(d)
    requires Merged(s[currentName], d, now).name == currentName || Merged(s[currentName], d, now).name !in s
    ensures var s' := PatchByName(s, d, currentName, now, None).store;
      var n := Merged(s[currentName], d, now).name;
      n in s' && s'[n].updatedAt == now && s'[n].createdAt <= s'[n].updatedAt
  {
  }
}
