/**
 * The request and response bodies (internal/handlers/http/json.go) and the
 * structural validation their `validate:"required"` tags ask for.
 */
module JsonShapes {
  import opened Wrappers
  import opened Domain

  /** POST body. `amount_of_employees` is a pointer, so 0 is present and distinct from absent. */
  datatype CreateBody = CreateBody(
    name: string,               // required
    description: string,        // optional
    employeesNumber: Option<int>, // required
    isRegistered: bool,         // required
    typeName: string)           // required

  /** The fields of the POST body. */
  datatype Field = NameField | DescriptionField | EmployeesField | RegisteredField | TypeField

  /** The fields tagged `validate:"required"`: every one but the description. */
  predicate Tagged(f: Field) {
    f != DescriptionField
  }

  /** The field holds the zero value of its Go type: "", a nil pointer or false. */
  predicate IsZero(b: CreateBody, f: Field) {
    match f
    case NameField => b.name == ""
    case DescriptionField => b.description == ""
    case EmployeesField => b.employeesNumber.None?
    case RegisteredField => !b.isRegistered
    case TypeField => b.typeName == ""
  }

  /**
   * `required` as the validator applies it: a string must be non-empty, a
   * pointer non-nil and a bool true (false is the zero value of a bool).
   * The body passes exactly when no tagged field holds its zero value.
   */
  function ValidCreate(b: CreateBody): (ok: bool)
    ensures ok <==> forall f :: Tagged(f) ==> !IsZero(b, f)
  {
    assert IsZero(b, NameField) || IsZero(b, EmployeesField) || IsZero(b, RegisteredField) || IsZero(b, TypeField)
      <==> !(b.name != "" && b.employeesNumber.Some? && b.isRegistered && b.typeName != "");
    b.name != "" && b.employeesNumber.Some? && b.isRegistered && b.typeName != ""
  }

  /** The description may be left out; `registered: false` cannot pass `required`. */
  lemma CreateRequirements(b: CreateBody)
    ensures ValidCreate(b) ==> ValidCreate(b.(description := ""))
    ensures !ValidCreate(b.(isRegistered := false))
    ensures ValidCreate(b) ==> ValidCreate(b.(employeesNumber := Some(0)))
    ensures !ValidCreate(b.(employeesNumber := None))
  {
  }

  /** GET response: only plain values, plus the id and both timestamps. */
  datatype GetBody = GetBody(
    id: Uuid,
    name: string,
    description: string,
    employeesNumber: int,
    isRegistered: bool,
    typeName: string,
    updatedAt: Time,
    createdAt: Time)

  /**
   * PATCH body. It has no `validate` tags, so every decodable body passes
   * validation. `name` is plain (empty means unchanged); the other four are
   * pointers (nil means unchanged).
   */
  datatype PatchBody = PatchBody(
    name: string,
    description: Option<string>,
    employeesNumber: Option<int>,
    isRegistered: Option<bool>,
    typeName: Option<string>)

  /** `{"error_message": ...}`. */
  datatype ErrorBody = ErrorBody(message: string)
}
