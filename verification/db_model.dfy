/**
 * The row record of the repository (internal/repositories/db/model.go) and
 * `modelConverter`, which turns a domain record into a row.
 */
module DbModel {
  import opened Wrappers
  import opened Domain

  /** One row of the companies table; every attribute is a plain value. */
  datatype Model = Model(
    id: Uuid,
    name: string,
    description: string,
    employeesNumber: int,
    isRegistered: bool,
    companyType: CompanyType,
    createdAt: Time,
    updatedAt: Time)

  /**
   * `modelConverter`: copies the identity, the name and the four
   * dereferenced values, stamps `updatedAt` with the clock and leaves
   * `createdAt` at the zero time. It dereferences all four pointer fields,
   * so it is defined only on populated records: a nil one is a nil-pointer
   * dereference.
   */
  function ModelConverter(d: Company, now: Time): (m: Model)
    requires Populated(d)
    ensures m.id == d.id && m.name == d.name
    ensures Some(m.description) == d.description
    ensures Some(m.employeesNumber) == d.employeesNumber
    ensures Some(m.isRegistered) == d.isRegistered
    ensures Some(m.companyType) == d.companyType
    ensures m.updatedAt == now
    ensures m.createdAt == ZeroTime
  {
    Model(d.id, d.name, d.description.value, d.employeesNumber.value,
          d.isRegistered.value, d.companyType.value, ZeroTime, now)
  }
}
