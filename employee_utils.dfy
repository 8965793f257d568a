/**
 * src/utils/employeeUtils.jsx: the null-guarded copy of the sequential
 * employee-id generator.
 */
module EmployeeUtils {
  import opened JsValues
  import opened Schema
  import Helpers

  /**
   * `generateNextEmployeeId(existingEmployees)` with its guard: a null or
   * undefined list (`None`) gives "E001"; otherwise the same chain as the
   * unguarded generator.
   */
  function NextEmployeeId(existingEmployees: Option<seq<Record>>): (id: string)
    ensures existingEmployees.None? ==> id == "E001"
    ensures existingEmployees.Some? ==> id == Helpers.NextEmployeeId(existingEmployees.value)
  {
    match existingEmployees
    case None => "E001"
    case Some(employees) =>
      Helpers.FormatEmployeeId(Helpers.MaxOrZero(Helpers.IdNumbers(employees)) + 1)
  }

  /** Whatever the list, the result is an id none of its employees holds. */
  lemma NextEmployeeIdIsFresh(existingEmployees: Option<seq<Record>>)
    ensures existingEmployees.Some? ==>
      forall e :: e in existingEmployees.value ==>
        Get(e, EmployeeIdKey) != Some(Str(NextEmployeeId(existingEmployees)))
  {
    if existingEmployees.Some? {
      Helpers.NextEmployeeIdIsFresh(existingEmployees.value);
    }
  }

  /** An empty list, or one without a parseable `E…` id, gives "E001" as well. */
  lemma NextEmployeeIdWithoutIds(existingEmployees: Option<seq<Record>>)
    requires existingEmployees.Some? ==> Helpers.IdNumbers(existingEmployees.value) == []
    ensures NextEmployeeId(existingEmployees) == "E001"
  {
    if existingEmployees.Some? {
      Helpers.NextEmployeeIdWithoutIds(existingEmployees.value);
    }
  }
}
