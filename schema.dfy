/**
 * The static field definitions the forms, tables and store are driven by:
 * the employee and payroll schemas of src/api.js and the older employee
 * schema inlined in src/pages/HomePage.jsx.
 */
module Schema {
  import opened JsValues

  datatype FieldType = Text | Number | Date | Select | Email | Tel

  /**
   * One field definition. Flags the source reads only for truthiness are
   * `bool` (absent = false); `isEditableAfterCreation` is read both with
   * `=== false` and with `!`, so its absence is kept apart from `false`.
   */
  datatype FieldDef = FieldDef(
    key: string,
    labelText: string,
    kind: FieldType,
    isSystem: bool,
    isRequired: bool,
    isEditable: Option<bool>,
    isEditableAfterCreation: Option<bool>,
    isCalculated: bool,
    isHidden: bool,
    notInForm: bool,
    alwaysVisibleInPayroll: bool,
    isHighlyVisible: bool,
    defaultValue: Option<Value>,
    options: seq<string>)

  /** A field with only key, label and type set. */
  function Field(key: string, labelText: string, kind: FieldType): FieldDef
  {
    FieldDef(key, labelText, kind, false, false, None, None, false, false, false, false, false, None, [])
  }

  function Keys(fields: seq<FieldDef>): (ks: seq<string>)
    ensures |ks| == |fields| && forall i :: 0 <= i < |fields| ==> ks[i] == fields[i].key
  {
    seq(|fields|, i requires 0 <= i < |fields| => fields[i].key)
  }

  /** `fields.find((f) => f.key === key)`. */
  function FindField(fields: seq<FieldDef>, key: string): (r: Option<FieldDef>)
    ensures r.None? <==> key !in Keys(fields)
    ensures r.Some? ==> r.value in fields && r.value.key == key
  {
    if fields == [] then None
    else if fields[0].key == key then Some(fields[0])
    else FindField(fields[1..], key)
  }

  /** No two fields share a key. */
  predicate UniqueKeys(fields: seq<FieldDef>)
  {
    forall i, j :: 0 <= i < j < |fields| ==> fields[i].key != fields[j].key
  }

  /** `field.defaultValue !== undefined ? field.defaultValue : ""`. */
  function DefaultOrBlank(f: FieldDef): Value
  {
    match f.defaultValue
    case Some(v) => v
    case None => Str("")
  }

  // Record keys the store and the forms single out.
  const InternalIdKey := "internalId"
  const EmployeeIdKey := "employeeId"
  const DisbursementDateKey := "disbursementDate"
  const FullNameKey := "fullName"
  const EmployeeFullNameKey := "employeeFullName"
  const StatusKey := "status"

  // Payroll keys the calculator reads and writes.
  const BasicSalaryKey := "basicSalary"
  const HouseRentPctKey := "houseRentAllowancePercentage"
  const MedicalPctKey := "medicalAllowancePercentage"
  const ConveyanceKey := "conveyanceAllowanceFixed"
  const TelephoneKey := "telephoneAllowanceFixed"
  const SpecialKey := "specialAllowanceFixed"
  const OtherAllowancesKey := "otherAllowancesFixed"
  const IncomeTaxPctKey := "incomeTaxPercentage"
  const OtherDeductionsKey := "otherDeductionsFixed"
  const HouseRentAmountKey := "houseRentAmount"
  const MedicalAmountKey := "medicalAmount"
  const GrossSalaryKey := "grossSalary"
  const IncomeTaxAmountKey := "incomeTaxAmount"
  const TotalDeductionsKey := "totalDeductions"
  const NetSalaryKey := "netSalary"

  /** `defaultEmployeeSchema` (src/api.js). */
  const EmployeeSchema: seq<FieldDef> := [
    Field("internalId", "Internal ID", Text).(isSystem := true, isEditable := Some(false), isHidden := true),
    Field("employeeId", "Employee ID", Text).(isSystem := true, isRequired := true, isEditable := Some(false)),
    Field("fullName", "Full Name", Text).(isRequired := true),
    Field("department", "Department", Text),
    Field("jobTitle", "Job Title", Text),
    Field("dateOfJoining", "Date of Joining", Date),
    Field("email", "Email", Email).(isRequired := true),
    Field("phoneNumber", "Phone Number", Tel),
    Field("status", "Status", Select).(options := ["Active", "On Leave", "Terminated"], defaultValue := Some(Str("Active")))
  ]

  /** The schema returned by the local `fetchEmployeeSchema` of src/pages/HomePage.jsx. */
  const LegacyEmployeeSchema: seq<FieldDef> := EmployeeSchema[1..]

  const PayrollEmployeeIdField := Field("employeeId", "Employee ID", Text).(isSystem := true, isEditable := Some(false),
    isRequired := true, notInForm := true, alwaysVisibleInPayroll := true)

  const DisbursementDateField := Field("disbursementDate", "Disbursement Date", Date).(isRequired := true,
    isEditableAfterCreation := Some(false), defaultValue := Some(Str("")))

  /** The identifying and bookkeeping fields that open the payroll schema. */
  const PayrollHeadFields: seq<FieldDef> := [
    Field("internalId", "Internal ID", Text).(isSystem := true, isEditable := Some(false), isHidden := true),
    PayrollEmployeeIdField,
    Field("employeeFullName", "Full Name", Text).(isSystem := true, isEditable := Some(false), isCalculated := true,
      notInForm := true),
    DisbursementDateField,
    Field("payrollStatus", "Payroll Status", Select).(options := ["Pending", "Processed", "Paid", "On Hold", "Cancelled"],
      defaultValue := Some(Str("Pending")), isRequired := true)
  ]

  /** The calculator's inputs. */
  const PayrollInputFields: seq<FieldDef> := [
    Field("basicSalary", "Basic Salary", Number).(isRequired := true, defaultValue := Some(Num(0.0))),
    Field("houseRentAllowancePercentage", "HRA (%)", Number).(defaultValue := Some(Num(40.0))),
    Field("medicalAllowancePercentage", "Medical (%)", Number).(defaultValue := Some(Num(10.0))),
    Field("conveyanceAllowanceFixed", "Conveyance", Number).(defaultValue := Some(Num(0.0))),
    Field("telephoneAllowanceFixed", "Telephone", Number).(defaultValue := Some(Num(0.0))),
    Field("specialAllowanceFixed", "Special Allow.", Number).(defaultValue := Some(Num(0.0))),
    Field("otherAllowancesFixed", "Other Allow.", Number).(defaultValue := Some(Num(0.0))),
    Field("incomeTaxPercentage", "Income Tax (%)", Number).(defaultValue := Some(Num(0.0))),
    Field("otherDeductionsFixed", "Other Deduct.", Number).(defaultValue := Some(Num(0.0)))
  ]

  /** The calculator's outputs. */
  const PayrollAmountFields: seq<FieldDef> := [
    Field("houseRentAmount", "HRA Amt", Number).(isCalculated := true, isEditable := Some(false)),
    Field("medicalAmount", "Medical Amt", Number).(isCalculated := true, isEditable := Some(false)),
    Field("grossSalary", "Gross Salary", Number).(isCalculated := true, isEditable := Some(false), isHighlyVisible := true),
    Field("incomeTaxAmount", "Income Tax Amt", Number).(isCalculated := true, isEditable := Some(false)),
    Field("totalDeductions", "Total Deduct.", Number).(isCalculated := true, isEditable := Some(false)),
    Field("netSalary", "Net Salary", Number).(isCalculated := true, isEditable := Some(false), isHighlyVisible := true)
  ]

  /** `defaultPayrollSchema` (src/api.js), in its canonical order. */
  const PayrollSchema: seq<FieldDef> := PayrollHeadFields + PayrollInputFields + PayrollAmountFields

  /** `find` returns the field at the first index holding the key. */
  lemma {:induction false} FindFieldAt(fields: seq<FieldDef>, key: string, i: nat)
    requires i < |fields| && fields[i].key == key
    requires forall j :: 0 <= j < i ==> fields[j].key != key
    ensures FindField(fields, key) == Some(fields[i])
  {
    if i > 0 {
      FindFieldAt(fields[1..], key, i - 1);
    }
  }

  /** The payroll schema's `disbursementDate` field freezes once a record exists. */
  lemma DisbursementDateFrozen()
    ensures FindField(PayrollSchema, "disbursementDate") == Some(DisbursementDateField)
    ensures DisbursementDateField.isEditableAfterCreation == Some(false)
  {
    assert PayrollSchema[..5] == PayrollHeadFields;
    FindFieldAt(PayrollSchema, "disbursementDate", 3);
  }

  /** The payroll schema's `employeeId` field is flagged always visible. */
  lemma EmployeeIdAlwaysVisible()
    ensures FindField(PayrollSchema, "employeeId") == Some(PayrollEmployeeIdField)
    ensures PayrollEmployeeIdField.alwaysVisibleInPayroll
  {
    assert PayrollSchema[..5] == PayrollHeadFields;
    FindFieldAt(PayrollSchema, "employeeId", 1);
  }
}
