/**
 * `patchQueryBuilder` (internal/repositories/db/company.go): from a sparse
 * patch, the SET list of the UPDATE statement. The source builds the text;
 * the model also states the same plan as a list of columns and proves the
 * text is that list rendered.
 */
module PatchQuery {
  import opened Wrappers
  import opened Domain
  import opened Errors

  datatype Column =
    | NameColumn
    | DescriptionColumn
    | IsRegisteredColumn
    | EmployeesNumberColumn
    | TypeColumn
    | UpdatedAtColumn

  /** Number of field columns, the ones a patch may or may not supply. */
  const FieldCount: nat := 5

  /** Position of a column in the fixed order the builder emits; `updated_at` is last. */
  function Rank(c: Column): (k: nat)
    ensures k <= FieldCount
    ensures k == FieldCount <==> c == UpdatedAtColumn
  {
    match c
    case NameColumn => 0
    case DescriptionColumn => 1
    case IsRegisteredColumn => 2
    case EmployeesNumberColumn => 3
    case TypeColumn => 4
    case UpdatedAtColumn => 5
  }

  /** The column at a position: the inverse of `Rank`. */
  function ColumnAt(k: nat): (c: Column)
    requires k <= FieldCount
    ensures Rank(c) == k
  {
    if k == 0 then NameColumn
    else if k == 1 then DescriptionColumn
    else if k == 2 then IsRegisteredColumn
    else if k == 3 then EmployeesNumberColumn
    else if k == 4 then TypeColumn
    else UpdatedAtColumn
  }

  /** ` col=:col`: the column set from the named parameter of the same name. */
  function Assignment(c: Column): string {
    match c
    case NameColumn => " name=:name"
    case DescriptionColumn => " description=:description"
    case IsRegisteredColumn => " is_registered=:is_registered"
    case EmployeesNumberColumn => " employees_number=:employees_number"
    case TypeColumn => " type=:type"
    case UpdatedAtColumn => " updated_at=:updated_at"
  }

  /** The patch supplies a value for column `c`: a non-empty name, or a non-nil pointer. */
  predicate Supplies(d: Company, c: Column) {
    match c
    case NameColumn => d.name != ""
    case DescriptionColumn => d.description.Some?
    case IsRegisteredColumn => d.isRegistered.Some?
    case EmployeesNumberColumn => d.employeesNumber.Some?
    case TypeColumn => d.companyType.Some?
    case UpdatedAtColumn => true
  }

  /** The patch supplies nothing: an empty name and all four pointers nil. */
  predicate NoChange(d: Company) {
    d.name == "" && d.description.None? && d.isRegistered.None?
    && d.employeesNumber.None? && d.companyType.None?
  }

  /** What the builder appends for column `c`: its assignment and a comma, or nothing. */
  function Piece(d: Company, c: Column): string {
    if Supplies(d, c) then Assignment(c) + "," else ""
  }

  /** The text accumulated before the emptiness check: the five appends in source order. */
  function FieldAssignments(d: Company): string {
    Piece(d, NameColumn) + (Piece(d, DescriptionColumn) + (Piece(d, IsRegisteredColumn)
      + (Piece(d, EmployeesNumberColumn) + Piece(d, TypeColumn))))
  }

  /** `patchQueryBuilder`: the SET text, or InvalidArgumentsForBuildingquery for an empty patch. */
  function PatchQueryBuilder(d: Company): (r: Result<string, Error>)
    ensures r.Failure? <==> NoChange(d)
    ensures r.Failure? ==> r.error == InvalidArgumentsForBuildingquery
  {
    var query := FieldAssignments(d);
    if query == "" then Failure(InvalidArgumentsForBuildingquery)
    else Success(query + Assignment(UpdatedAtColumn))
  }

  /** Strictly increasing in `Rank` from each column to the next: the fixed order. */
  predicate Ordered(cols: seq<Column>)
    decreases |cols|
  {
    |cols| <= 1 || (Rank(cols[0]) < Rank(cols[1]) && Ordered(cols[1..]))
  }

  /** In an ordered list every column precedes all higher-ranked ones, so none appears twice. */
  lemma {:induction false} OrderedHasNoRepeats(cols: seq<Column>)
    requires Ordered(cols)
    ensures forall i, j :: 0 <= i < j < |cols| ==> Rank(cols[i]) < Rank(cols[j])
    ensures forall i, j :: 0 <= i < j < |cols| ==> cols[i] != cols[j]
    decreases |cols|
  {
    if |cols| > 1 {
      OrderedHasNoRepeats(cols[1..]);
      forall i, j | 0 <= i < j < |cols|
        ensures Rank(cols[i]) < Rank(cols[j])
      {
        if i > 0 {
          assert cols[i] == cols[1..][i - 1] && cols[j] == cols[1..][j - 1];
        } else if j > 1 {
          assert cols[1] == cols[1..][0] && cols[j] == cols[1..][j - 1];
        }
      }
    }
  }

  /** Some field column from position `k` on is supplied. */
  predicate SuppliesFrom(d: Company, k: nat)
    requires k <= FieldCount
    decreases FieldCount - k
  {
    k < FieldCount && (Supplies(d, ColumnAt(k)) || SuppliesFrom(d, k + 1))
  }

  /** A patch changes something exactly when it supplies a field column. */
  lemma SuppliesFromStart(d: Company)
    ensures SuppliesFrom(d, 0) <==> !NoChange(d)
  {
    assert !SuppliesFrom(d, FieldCount);
  }

  /**
   * The supplied columns from position `k` on, in order, followed by
   * `updated_at`.
   */
  function PlanFrom(d: Company, k: nat): seq<Column>
    requires k <= FieldCount
    decreases FieldCount - k
  {
    if k == FieldCount then [UpdatedAtColumn]
    else if Supplies(d, ColumnAt(k)) then [ColumnAt(k)] + PlanFrom(d, k + 1)
    else PlanFrom(d, k + 1)
  }

  /** The plan from `k` holds exactly the supplied columns ranked `k` or later. */
  lemma {:induction false} PlanFromMembers(d: Company, k: nat)
    requires k <= FieldCount
    ensures forall c :: c in PlanFrom(d, k) <==> Rank(c) >= k && Supplies(d, c)
    decreases FieldCount - k
  {
    if k < FieldCount {
      PlanFromMembers(d, k + 1);
      assert forall c :: Rank(c) >= k <==> Rank(c) == k || Rank(c) >= k + 1;
    }
  }

  /** The plan from `k` always ends with `updated_at`. */
  lemma {:induction false} PlanFromEnds(d: Company, k: nat)
    requires k <= FieldCount
    ensures |PlanFrom(d, k)| > 0 && PlanFrom(d, k)[|PlanFrom(d, k)| - 1] == UpdatedAtColumn
    decreases FieldCount - k
  {
    if k < FieldCount {
      PlanFromEnds(d, k + 1);
      var rest := PlanFrom(d, k + 1);
      if Supplies(d, ColumnAt(k)) {
        var plan := [ColumnAt(k)] + rest;
        assert plan[|plan| - 1] == rest[|rest| - 1];
      }
    }
  }

  /** The plan from `k` holds a field column exactly when one from `k` on is supplied. */
  lemma {:induction false} PlanFromLength(d: Company, k: nat)
    requires k <= FieldCount
    ensures |PlanFrom(d, k)| >= 2 <==> SuppliesFrom(d, k)
    decreases FieldCount - k
  {
    if k < FieldCount {
      PlanFromLength(d, k + 1);
      PlanFromEnds(d, k + 1);
      assert SuppliesFrom(d, k) <==> Supplies(d, ColumnAt(k)) || SuppliesFrom(d, k + 1);
    }
  }

  /** The plan from `k` is in rank order. */
  lemma {:induction false} PlanFromOrdered(d: Company, k: nat)
    requires k <= FieldCount
    ensures Ordered(PlanFrom(d, k))
    decreases FieldCount - k
  {
    if k < FieldCount {
      PlanFromOrdered(d, k + 1);
      var rest := PlanFrom(d, k + 1);
      if Supplies(d, ColumnAt(k)) {
        var plan := [ColumnAt(k)] + rest;
        assert rest[0] in rest by { PlanFromEnds(d, k + 1); }
        assert Rank(rest[0]) > k by { PlanFromMembers(d, k + 1); }
        assert plan[1] == rest[0] && plan[1..] == rest;
      }
    }
  }

  /**
   * `plan` is what patch `d` writes: every column it supplies and no other,
   * each once in the fixed order, `updated_at` last and at least one field
   * column before it.
   */
  predicate Plans(d: Company, plan: seq<Column>) {
    && |plan| >= 2
    && plan[|plan| - 1] == UpdatedAtColumn
    && Ordered(plan)
    && forall c :: c in plan <==> Supplies(d, c)
  }

  /** The plan from the first column is the plan of a patch that changes something. */
  lemma PlanFromStart(d: Company)
    requires !NoChange(d)
    ensures Plans(d, PlanFrom(d, 0))
  {
    SuppliesFromStart(d);
    PlanFromEnds(d, 0);
    PlanFromLength(d, 0);
    PlanFromOrdered(d, 0);
    PlanFromMembers(d, 0);
  }

  /** The columns a patch writes, `updated_at` last, or the builder's error. */
  function PatchPlan(d: Company): (r: Result<seq<Column>, Error>)
    ensures r.Failure? <==> NoChange(d)
    ensures r.Failure? ==> r.error == InvalidArgumentsForBuildingquery
    ensures r.Success? ==> Plans(d, r.value)
  {
    if NoChange(d) then Failure(InvalidArgumentsForBuildingquery)
    else
      PlanFromStart(d);
      Success(PlanFrom(d, 0))
  }

  /** No column appears twice in a plan. */
  lemma PlanHasNoRepeats(d: Company)
    requires PatchPlan(d).Success?
    ensures var plan := PatchPlan(d).value;
      forall i, j :: 0 <= i < j < |plan| ==> plan[i] != plan[j]
  {
    OrderedHasNoRepeats(PatchPlan(d).value);
  }

  /** The rendered SET list: assignments separated by commas. */
  function SetClause(plan: seq<Column>): string
    decreases |plan|
  {
    if plan == [] then ""
    else if |plan| == 1 then Assignment(plan[0])
    else Assignment(plan[0]) + "," + SetClause(plan[1..])
  }

  /** The builder's accumulated text from position `k` on. */
  function TextFrom(d: Company, k: nat): string
    requires k <= FieldCount
    decreases FieldCount - k
  {
    if k == FieldCount then "" else Piece(d, ColumnAt(k)) + TextFrom(d, k + 1)
  }

  /** Concatenation is associative. */
  lemma AppendAssociates(a: string, b: string, c: string)
    ensures (a + b) + c == a + (b + c)
  {
  }

  /** Rendering the plan from position `k` gives the text from `k` and then `updated_at`. */
  lemma {:induction false} RenderFrom(d: Company, k: nat)
    requires k <= FieldCount
    ensures SetClause(PlanFrom(d, k)) == TextFrom(d, k) + Assignment(UpdatedAtColumn)
    decreases FieldCount - k
  {
    if k < FieldCount {
      RenderFrom(d, k + 1);
      var rest := PlanFrom(d, k + 1);
      AppendAssociates(Piece(d, ColumnAt(k)), TextFrom(d, k + 1), Assignment(UpdatedAtColumn));
      if Supplies(d, ColumnAt(k)) {
        assert ([ColumnAt(k)] + rest)[1..] == rest;
      }
    }
  }

  /** The five appends of the source are the accumulated text from position 0. */
  lemma FieldAssignmentsUnrolled(d: Company)
    ensures FieldAssignments(d) == TextFrom(d, 0)
  {
    var last := Piece(d, TypeColumn);
    assert TextFrom(d, 4) == last + "";
    assert last + "" == last;
  }

  /** The builder's text is exactly the column plan rendered; both fail on the same patches. */
  lemma BuilderRendersPlan(d: Company)
    ensures PatchPlan(d).Success? <==> PatchQueryBuilder(d).Success?
    ensures PatchPlan(d).Success? ==> PatchQueryBuilder(d).value == SetClause(PatchPlan(d).value)
  {
    if PatchPlan(d).Success? {
      FieldAssignmentsUnrolled(d);
      RenderFrom(d, 0);
    }
  }
}
