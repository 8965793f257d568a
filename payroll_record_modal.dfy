/**
 * src/modals/PayrollRecordModal.jsx: the payroll form of one employee. The
 * component's props are the constant fields of `PayrollForm`, its state the
 * mutable ones; each handler is a method. `generateInternalId` is a fresh id
 * passed in by the caller.
 */
module PayrollRecordModal {
  import opened JsValues
  import opened Schema
  import Helpers

  /** A field the form edits: not calculated and not kept out of the form. */
  predicate InForm(f: FieldDef)
  {
    !f.isCalculated && !f.notInForm
  }

  /**
   * A field's starting value: the edited record's value when it has one,
   * otherwise the default. `source` is `None` for a new record.
   */
  function StartingValue(f: FieldDef, source: Option<Record>): Value
  {
    if source.Some? && f.key in source.value then source.value[f.key] else DefaultOrBlank(f)
  }

  /** The `forEach` that fills the form fields in schema order. */
  function FillFields(data: Record, fields: seq<FieldDef>, source: Option<Record>): Record
  {
    if fields == [] then data
    else
      var f := fields[|fields| - 1];
      var prev := FillFields(data, fields[..|fields| - 1], source);
      if InForm(f) then prev[f.key := StartingValue(f, source)] else prev
  }

  /** Whether the form is in its initial-setup state. */
  predicate InitialSetup(existingPayrollData: Option<Record>, isMandatoryInitialSetup: bool)
  {
    existingPayrollData.None? || isMandatoryInitialSetup
  }

  /** The form data `initializeFormData` builds. */
  function InitialFormData(employeeId: Option<Value>, existingPayrollData: Option<Record>,
    payrollSchema: seq<FieldDef>, isMandatoryInitialSetup: bool, freshId: string): Record
  {
    var editing := !InitialSetup(existingPayrollData, isMandatoryInitialSetup);
    var source := if editing then existingPayrollData else None;
    var filled := FillFields(Put(map[], EmployeeIdKey, employeeId), payrollSchema, source);
    var internalId :=
      if editing && Truthy(Get(existingPayrollData.value, InternalIdKey))
      then existingPayrollData.value[InternalIdKey] else Str(freshId);
    var withId := filled[InternalIdKey := internalId];
    withId[BasicSalaryKey := Num(CoerceNumber(Get(withId, BasicSalaryKey)))]
  }

  /** Each in-form field holds its starting value; every other key keeps the starting record's. */
  lemma {:induction false} FillFieldsAt(data: Record, fields: seq<FieldDef>, source: Option<Record>, k: string)
    requires UniqueKeys(fields)
    ensures (exists i :: 0 <= i < |fields| && fields[i].key == k && InForm(fields[i])) ==>
      exists i :: 0 <= i < |fields| && fields[i].key == k && InForm(fields[i])
        && Get(FillFields(data, fields, source), k) == Some(StartingValue(fields[i], source))
    ensures (forall i :: 0 <= i < |fields| && fields[i].key == k ==> !InForm(fields[i])) ==>
      Get(FillFields(data, fields, source), k) == Get(data, k)
  {
    if fields != [] {
      var n := |fields| - 1;
      var p := fields[..n];
      assert UniqueKeys(p);
      FillFieldsAt(data, p, source, k);
      if fields[n].key == k && InForm(fields[n]) {
      } else if exists i :: 0 <= i < |fields| && fields[i].key == k && InForm(fields[i]) {
        var i :| 0 <= i < |fields| && fields[i].key == k && InForm(fields[i]);
        assert i < n && p[i] == fields[i];
      } else {
        forall i | 0 <= i < |p| && p[i].key == k
          ensures !InForm(p[i])
        {
          assert p[i] == fields[i];
        }
      }
    }
  }

  /** Some in-form field of `fields` has key `k`. */
  predicate InFormKey(fields: seq<FieldDef>, k: string)
  {
    exists i :: 0 <= i < |fields| && fields[i].key == k && InForm(fields[i])
  }

  lemma InFormKeySplit(fields: seq<FieldDef>, k: string)
    requires fields != []
    ensures InFormKey(fields, k) <==>
      InFormKey(fields[..|fields| - 1], k) || (fields[|fields| - 1].key == k && InForm(fields[|fields| - 1]))
  {
    var n := |fields| - 1;
    if InFormKey(fields, k) {
      var i :| 0 <= i < |fields| && fields[i].key == k && InForm(fields[i]);
      if i < n {
        assert fields[..n][i] == fields[i];
      }
    }
    if InFormKey(fields[..n], k) {
      var i :| 0 <= i < n && fields[..n][i].key == k && InForm(fields[..n][i]);
      assert fields[i] == fields[..n][i];
    }
  }

  /** The keys of the filled data: the starting record's plus the in-form fields'. */
  lemma {:induction false} FillFieldsKeys(data: Record, fields: seq<FieldDef>, source: Option<Record>)
    ensures forall k :: k in FillFields(data, fields, source) <==> k in data || InFormKey(fields, k)
  {
    if fields != [] {
      var n := |fields| - 1;
      FillFieldsKeys(data, fields[..n], source);
      forall k
        ensures InFormKey(fields, k) <==> InFormKey(fields[..n], k) || (fields[n].key == k && InForm(fields[n]))
      {
        InFormKeySplit(fields, k);
      }
    }
  }

  /**
   * The initial form data: each in-form field other than `internalId` and
   * `basicSalary` starts at the edited record's value (only when editing),
   * else at its default, else at "".
   */
  lemma InitialFormDataField(employeeId: Option<Value>, existingPayrollData: Option<Record>,
    payrollSchema: seq<FieldDef>, isMandatoryInitialSetup: bool, freshId: string, i: nat)
    requires UniqueKeys(payrollSchema)
    requires i < |payrollSchema| && InForm(payrollSchema[i])
    requires payrollSchema[i].key != InternalIdKey && payrollSchema[i].key != BasicSalaryKey
    ensures var f := payrollSchema[i];
      var data := InitialFormData(employeeId, existingPayrollData, payrollSchema, isMandatoryInitialSetup, freshId);
      && (!InitialSetup(existingPayrollData, isMandatoryInitialSetup) && f.key in existingPayrollData.value ==>
        Get(data, f.key) == Some(existingPayrollData.value[f.key]))
      && (InitialSetup(existingPayrollData, isMandatoryInitialSetup) || f.key !in existingPayrollData.value ==>
        Get(data, f.key) == Some(DefaultOrBlank(f)))
  {
    var editing := !InitialSetup(existingPayrollData, isMandatoryInitialSetup);
    var source := if editing then existingPayrollData else None;
    FillFieldsAt(Put(map[], EmployeeIdKey, employeeId), payrollSchema, source, payrollSchema[i].key);
  }

  /**
   * `basicSalary` always starts as a number: the starting value read by
   * `parseFloat || 0`. The form has no key besides `employeeId`,
   * `internalId`, `basicSalary` and the in-form fields.
   */
  lemma InitialFormDataShape(employeeId: Option<Value>, existingPayrollData: Option<Record>,
    payrollSchema: seq<FieldDef>, isMandatoryInitialSetup: bool, freshId: string)
    ensures var data := InitialFormData(employeeId, existingPayrollData, payrollSchema, isMandatoryInitialSetup, freshId);
      && BasicSalaryKey in data && data[BasicSalaryKey].Num?
      && InternalIdKey in data
      && forall k :: k in data ==>
        k == EmployeeIdKey || k == InternalIdKey || k == BasicSalaryKey || InFormKey(payrollSchema, k)
  {
    var editing := !InitialSetup(existingPayrollData, isMandatoryInitialSetup);
    var source := if editing then existingPayrollData else None;
    FillFieldsKeys(Put(map[], EmployeeIdKey, employeeId), payrollSchema, source);
  }

  /** A new record's internal id is the fresh one; an edited record keeps a set one. */
  lemma InitialFormDataInternalId(employeeId: Option<Value>, existingPayrollData: Option<Record>,
    payrollSchema: seq<FieldDef>, isMandatoryInitialSetup: bool, freshId: string)
    ensures var data := InitialFormData(employeeId, existingPayrollData, payrollSchema, isMandatoryInitialSetup, freshId);
      && (!InitialSetup(existingPayrollData, isMandatoryInitialSetup) && Truthy(Get(existingPayrollData.value, InternalIdKey)) ==>
        Get(data, InternalIdKey) == Get(existingPayrollData.value, InternalIdKey))
      && (InitialSetup(existingPayrollData, isMandatoryInitialSetup) ==> Get(data, InternalIdKey) == Some(Str(freshId)))
  {
  }

  // ---------------------------------------------------------------- change, validation, read-only

  /** What `handleChange` stores: a non-empty value of a number field goes through `parseFloat`. */
  function ChangedValue(payrollSchema: seq<FieldDef>, key: string, value: Value): (v: Value)
    ensures FindField(payrollSchema, key).Some? && FindField(payrollSchema, key).value.kind == Number && value != Str("") ==>
      v == ParsedValue(value)
    ensures !(FindField(payrollSchema, key).Some? && FindField(payrollSchema, key).value.kind == Number) ==> v == value
  {
    match FindField(payrollSchema, key)
    case Some(f) => if f.kind == Number && value != Str("") then ParsedValue(value) else value
    case None => value
  }

  /** `payrollSchema.find((f) => f.key === "disbursementDate")?.isEditableAfterCreation === false`. */
  predicate DateLockedAfterCreation(payrollSchema: seq<FieldDef>)
  {
    match FindField(payrollSchema, DisbursementDateKey)
    case Some(f) => f.isEditableAfterCreation == Some(false)
    case None => false
  }

  /** `isFieldReadOnly`: only the disbursement date, and only once the record exists. */
  predicate ReadOnly(f: FieldDef, isInitialSetupState: bool, payrollSchema: seq<FieldDef>)
  {
    f.key == DisbursementDateKey && !isInitialSetupState && DateLockedAfterCreation(payrollSchema)
  }

  /** The error `validate` records for one field, if any. */
  function FieldError(f: FieldDef, formData: Record, isInitialSetupState: bool,
    existingPayrollData: Option<Record>, payrollSchema: seq<FieldDef>): Option<string>
  {
    if f.isCalculated || f.notInForm || f.isHidden || !f.isRequired then None
    else
      var value := Get(formData, f.key);
      if IsBlank(value) then
        if f.key == DisbursementDateKey && !isInitialSetupState && DateLockedAfterCreation(payrollSchema)
          && existingPayrollData.Some? && Truthy(Get(existingPayrollData.value, DisbursementDateKey))
        then None
        else Some(f.labelText + " is required.")
      else if f.kind == Number && ParseFloatValue(value).None? then Some(f.labelText + " must be a valid number.")
      else None
  }

  /** The errors of a run of fields, collected in order (a later field with the same key wins). */
  function ErrorsOf(fields: seq<FieldDef>, formData: Record, isInitialSetupState: bool,
    existingPayrollData: Option<Record>, payrollSchema: seq<FieldDef>): Record
  {
    if fields == [] then map[]
    else
      var f := fields[|fields| - 1];
      var prev := ErrorsOf(fields[..|fields| - 1], formData, isInitialSetupState, existingPayrollData, payrollSchema);
      match FieldError(f, formData, isInitialSetupState, existingPayrollData, payrollSchema)
      case Some(m) => prev[f.key := Str(m)]
      case None => prev
  }

  /** Some field of `fields` with key `k` has an error. */
  predicate ErrorKey(fields: seq<FieldDef>, k: string, formData: Record, isInitialSetupState: bool,
    existingPayrollData: Option<Record>, payrollSchema: seq<FieldDef>)
  {
    exists i :: 0 <= i < |fields| && fields[i].key == k
      && FieldError(fields[i], formData, isInitialSetupState, existingPayrollData, payrollSchema).Some?
  }

  lemma ErrorKeySplit(fields: seq<FieldDef>, k: string, formData: Record, isInitialSetupState: bool,
    existingPayrollData: Option<Record>, payrollSchema: seq<FieldDef>)
    requires fields != []
    ensures var n := |fields| - 1;
      ErrorKey(fields, k, formData, isInitialSetupState, existingPayrollData, payrollSchema) <==>
        ErrorKey(fields[..n], k, formData, isInitialSetupState, existingPayrollData, payrollSchema)
        || (fields[n].key == k && FieldError(fields[n], formData, isInitialSetupState, existingPayrollData, payrollSchema).Some?)
  {
    var n := |fields| - 1;
    if ErrorKey(fields, k, formData, isInitialSetupState, existingPayrollData, payrollSchema) {
      var i :| 0 <= i < |fields| && fields[i].key == k
        && FieldError(fields[i], formData, isInitialSetupState, existingPayrollData, payrollSchema).Some?;
      if i < n {
        assert fields[..n][i] == fields[i];
      }
    }
    if ErrorKey(fields[..n], k, formData, isInitialSetupState, existingPayrollData, payrollSchema) {
      var i :| 0 <= i < n && fields[..n][i].key == k
        && FieldError(fields[..n][i], formData, isInitialSetupState, existingPayrollData, payrollSchema).Some?;
      assert fields[i] == fields[..n][i];
    }
  }

  /** A key carries an error exactly when one of the fields under it fails. */
  lemma {:induction false} ErrorsOfKeys(fields: seq<FieldDef>, formData: Record, isInitialSetupState: bool,
    existingPayrollData: Option<Record>, payrollSchema: seq<FieldDef>)
    ensures forall k :: k in ErrorsOf(fields, formData, isInitialSetupState, existingPayrollData, payrollSchema) <==>
      ErrorKey(fields, k, formData, isInitialSetupState, existingPayrollData, payrollSchema)
  {
    if fields != [] {
      ErrorsOfKeys(fields[..|fields| - 1], formData, isInitialSetupState, existingPayrollData, payrollSchema);
      forall k
        ensures ErrorKey(fields, k, formData, isInitialSetupState, existingPayrollData, payrollSchema) <==>
          ErrorKey(fields[..|fields| - 1], k, formData, isInitialSetupState, existingPayrollData, payrollSchema)
          || (fields[|fields| - 1].key == k
            && FieldError(fields[|fields| - 1], formData, isInitialSetupState, existingPayrollData, payrollSchema).Some?)
      {
        ErrorKeySplit(fields, k, formData, isInitialSetupState, existingPayrollData, payrollSchema);
      }
    }
  }

  /** The form is valid exactly when no field of the schema has an error. */
  lemma ValidIff(formData: Record, isInitialSetupState: bool, existingPayrollData: Option<Record>,
    payrollSchema: seq<FieldDef>)
    ensures |ErrorsOf(payrollSchema, formData, isInitialSetupState, existingPayrollData, payrollSchema)| == 0 <==>
      forall i :: 0 <= i < |payrollSchema| ==>
        FieldError(payrollSchema[i], formData, isInitialSetupState, existingPayrollData, payrollSchema).None?
  {
    var errors := ErrorsOf(payrollSchema, formData, isInitialSetupState, existingPayrollData, payrollSchema);
    ErrorsOfKeys(payrollSchema, formData, isInitialSetupState, existingPayrollData, payrollSchema);
    if |errors| != 0 {
      var k :| k in errors;
      assert ErrorKey(payrollSchema, k, formData, isInitialSetupState, existingPayrollData, payrollSchema);
    } else {
      forall i | 0 <= i < |payrollSchema|
        ensures FieldError(payrollSchema[i], formData, isInitialSetupState, existingPayrollData, payrollSchema).None?
      {
        assert payrollSchema[i].key !in errors;
      }
    }
  }

  /**
   * A read-only disbursement date may be left blank when the record being
   * edited already has one: it is exactly the field the rule exempts.
   */
  lemma ReadOnlyDateExempt(f: FieldDef, formData: Record, isInitialSetupState: bool,
    existingPayrollData: Option<Record>, payrollSchema: seq<FieldDef>)
    requires ReadOnly(f, isInitialSetupState, payrollSchema)
    requires existingPayrollData.Some? && Truthy(Get(existingPayrollData.value, DisbursementDateKey))
    requires IsBlank(Get(formData, f.key))
    ensures FieldError(f, formData, isInitialSetupState, existingPayrollData, payrollSchema).None?
  {
  }

  /** Outside that exemption a blank required form field is always reported. */
  lemma BlankRequiredReported(f: FieldDef, formData: Record, isInitialSetupState: bool,
    existingPayrollData: Option<Record>, payrollSchema: seq<FieldDef>)
    requires InForm(f) && !f.isHidden && f.isRequired && IsBlank(Get(formData, f.key))
    requires !ReadOnly(f, isInitialSetupState, payrollSchema)
      || existingPayrollData.None? || !Truthy(Get(existingPayrollData.value, DisbursementDateKey))
    ensures FieldError(f, formData, isInitialSetupState, existingPayrollData, payrollSchema) == Some(f.labelText + " is required.")
  {
  }

  /** A filled-in required field is reported exactly when it is a number field whose text does not parse. */
  lemma FilledFieldChecked(f: FieldDef, formData: Record, isInitialSetupState: bool,
    existingPayrollData: Option<Record>, payrollSchema: seq<FieldDef>)
    requires InForm(f) && !f.isHidden && f.isRequired && !IsBlank(Get(formData, f.key))
    ensures f.kind == Number && ParseFloatValue(Get(formData, f.key)).None? ==>
      FieldError(f, formData, isInitialSetupState, existingPayrollData, payrollSchema)
        == Some(f.labelText + " must be a valid number.")
    ensures f.kind != Number || ParseFloatValue(Get(formData, f.key)).Some? ==>
      FieldError(f, formData, isInitialSetupState, existingPayrollData, payrollSchema).None?
  {
  }

  /** Calculated, out-of-form, hidden and optional fields are never reported. */
  lemma SkippedFieldsNeverReported(f: FieldDef, formData: Record, isInitialSetupState: bool,
    existingPayrollData: Option<Record>, payrollSchema: seq<FieldDef>)
    requires !InForm(f) || f.isHidden || !f.isRequired
    ensures FieldError(f, formData, isInitialSetupState, existingPayrollData, payrollSchema).None?
  {
  }

  /** The payroll schema locks the date, so on an existing record it is read-only. */
  lemma PayrollDateReadOnly()
    ensures ReadOnly(DisbursementDateField, false, PayrollSchema)
    ensures !ReadOnly(DisbursementDateField, true, PayrollSchema)
  {
    DisbursementDateFrozen();
  }

  /** `internalId` of the payload: the form's, else the edited record's, else a fresh one. */
  function PayloadInternalId(formData: Record, existingPayrollData: Option<Record>, freshId: string): Value
  {
    if Truthy(Get(formData, InternalIdKey)) then formData[InternalIdKey]
    else if existingPayrollData.Some? && Truthy(Get(existingPayrollData.value, InternalIdKey))
    then existingPayrollData.value[InternalIdKey]
    else Str(freshId)
  }

  /** `finalPayrollData`: form data, then the calculated fields, then the two ids. */
  function Payload(formData: Record, calculatedFields: Record, employeeId: Option<Value>,
    existingPayrollData: Option<Record>, freshId: string): Record
  {
    Put(formData + calculatedFields, EmployeeIdKey, employeeId)[InternalIdKey := PayloadInternalId(formData, existingPayrollData, freshId)]
  }

  /**
   * With the calculated fields up to date, the spread of the form data adds
   * nothing: the calculator's result already holds every form key, so the
   * payload is that result with the two ids stamped on.
   */
  lemma PayloadOfFreshMetrics(formData: Record, employeeId: Option<Value>, existingPayrollData: Option<Record>, freshId: string)
    ensures formData + Helpers.PayrollMetrics(formData) == Helpers.PayrollMetrics(formData)
    ensures Payload(formData, Helpers.PayrollMetrics(formData), employeeId, existingPayrollData, freshId)
      == Put(Helpers.PayrollMetrics(formData), EmployeeIdKey, employeeId)[InternalIdKey := PayloadInternalId(formData, existingPayrollData, freshId)]
  {
    Helpers.MetricsFromOtherKeys(formData, Helpers.ReadInputs(formData));
  }

  /** The payload always carries the component's employee id and a truthy internal id. */
  lemma PayloadIds(formData: Record, calculatedFields: Record, employeeId: Option<Value>,
    existingPayrollData: Option<Record>, freshId: string)
    requires employeeId.Some? && freshId != ""
    ensures var p := Payload(formData, calculatedFields, employeeId, existingPayrollData, freshId);
      && Get(p, EmployeeIdKey) == employeeId
      && Truthy(Get(p, InternalIdKey))
      && forall k :: k != EmployeeIdKey && k != InternalIdKey ==>
        Get(p, k) == if k in calculatedFields then Get(calculatedFields, k) else Get(formData, k)
  {
  }

  // ---------------------------------------------------------------- the component

  class PayrollForm {
    const employeeId: Option<Value>
    const existingPayrollData: Option<Record>
    const payrollSchema: seq<FieldDef>
    const isMandatoryInitialSetup: bool

    var formData: Record
    var calculatedFields: Record
    var errors: Record
    var isInitialSetupState: bool

    /** The component as first rendered, before its effects run. */
    constructor(employeeId: Option<Value>, existingPayrollData: Option<Record>, payrollSchema: seq<FieldDef>,
      isMandatoryInitialSetup: bool)
      ensures this.employeeId == employeeId && this.existingPayrollData == existingPayrollData
      ensures this.payrollSchema == payrollSchema && this.isMandatoryInitialSetup == isMandatoryInitialSetup
      ensures formData == map[] && calculatedFields == map[] && errors == map[] && !isInitialSetupState
    {
      this.employeeId := employeeId;
      this.existingPayrollData := existingPayrollData;
      this.payrollSchema := payrollSchema;
      this.isMandatoryInitialSetup := isMandatoryInitialSetup;
      formData, calculatedFields, errors, isInitialSetupState := map[], map[], map[], false;
    }

    /** `initializeFormData`. */
    method InitializeFormData(freshId: string)
      modifies this
      ensures isInitialSetupState == InitialSetup(existingPayrollData, isMandatoryInitialSetup)
      ensures formData == InitialFormData(employeeId, existingPayrollData, payrollSchema, isMandatoryInitialSetup, freshId)
      ensures errors == map[] && calculatedFields == old(calculatedFields)
    {
      var initialData := Put(map[], EmployeeIdKey, employeeId);
      var isActuallyInitial := existingPayrollData.None? || isMandatoryInitialSetup;
      isInitialSetupState := isActuallyInitial;
      var source := if !isActuallyInitial then existingPayrollData else None;
      var i := 0;
      while i < |payrollSchema|
        invariant 0 <= i <= |payrollSchema|
        invariant initialData == FillFields(Put(map[], EmployeeIdKey, employeeId), payrollSchema[..i], source)
      {
        var field := payrollSchema[i];
        if !field.isCalculated && !field.notInForm {
          initialData := initialData[field.key := StartingValue(field, source)];
        }
        assert payrollSchema[..i + 1][..i] == payrollSchema[..i];
        i := i + 1;
      }
      assert payrollSchema[..i] == payrollSchema;
      if !isActuallyInitial && Truthy(Get(existingPayrollData.value, InternalIdKey)) {
        initialData := initialData[InternalIdKey := existingPayrollData.value[InternalIdKey]];
      } else {
        initialData := initialData[InternalIdKey := Str(freshId)];
      }
      initialData := initialData[BasicSalaryKey := Num(CoerceNumber(Get(initialData, BasicSalaryKey)))];
      formData := initialData;
      errors := map[];
    }

    /** The effect that recomputes the calculated fields whenever the form data is non-empty. */
    method RecalculateMetrics()
      modifies this`calculatedFields
      ensures |formData| > 0 ==> calculatedFields == Helpers.PayrollMetrics(formData)
      ensures |formData| == 0 ==> calculatedFields == old(calculatedFields)
    {
      if |formData| > 0 {
        calculatedFields := Helpers.CalculatePayrollMetrics(formData);
      }
    }

    /** `handleChange`: one key of the form changes; a pending error on it is cleared. */
    method HandleChange(key: string, value: Value)
      modifies this
      ensures formData == old(formData)[key := ChangedValue(payrollSchema, key, value)]
      ensures Truthy(Get(old(errors), key)) ==> errors == old(errors)[key := Null]
      ensures !Truthy(Get(old(errors), key)) ==> errors == old(errors)
      ensures calculatedFields == old(calculatedFields) && isInitialSetupState == old(isInitialSetupState)
    {
      formData := formData[key := ChangedValue(payrollSchema, key, value)];
      if Truthy(Get(errors, key)) {
        errors := errors[key := Null];
      }
    }

    /** `validate`: collects the field errors in schema order; valid when there are none. */
    method Validate() returns (valid: bool)
      modifies this
      ensures errors == ErrorsOf(payrollSchema, formData, isInitialSetupState, existingPayrollData, payrollSchema)
      ensures valid <==> forall i :: 0 <= i < |payrollSchema| ==>
        FieldError(payrollSchema[i], formData, isInitialSetupState, existingPayrollData, payrollSchema).None?
      ensures formData == old(formData) && calculatedFields == old(calculatedFields)
      ensures isInitialSetupState == old(isInitialSetupState)
    {
      var newErrors: Record := map[];
      var i := 0;
      while i < |payrollSchema|
        invariant 0 <= i <= |payrollSchema|
        invariant newErrors == ErrorsOf(payrollSchema[..i], formData, isInitialSetupState, existingPayrollData, payrollSchema)
      {
        var field := payrollSchema[i];
        var message := FieldError(field, formData, isInitialSetupState, existingPayrollData, payrollSchema);
        if message.Some? {
          newErrors := newErrors[field.key := Str(message.value)];
        }
        assert payrollSchema[..i + 1][..i] == payrollSchema[..i];
        i := i + 1;
      }
      assert payrollSchema[..i] == payrollSchema;
      errors := newErrors;
      ValidIff(formData, isInitialSetupState, existingPayrollData, payrollSchema);
      valid := |newErrors| == 0;
    }

    /** `handleAttemptClose`: refused while a mandatory setup is still in its initial state. */
    method HandleAttemptClose() returns (closes: bool)
      ensures closes <==> !(isMandatoryInitialSetup && isInitialSetupState)
    {
      closes := !(isMandatoryInitialSetup && isInitialSetupState);
    }

    /** `handleSubmit`: validates, and hands the payload to `onSave` only when valid. */
    method HandleSubmit(freshId: string) returns (saved: Option<Record>)
      modifies this
      ensures errors == ErrorsOf(payrollSchema, formData, isInitialSetupState, existingPayrollData, payrollSchema)
      ensures saved.Some? <==> |errors| == 0
      ensures saved.Some? ==> saved.value == Payload(formData, calculatedFields, employeeId, existingPayrollData, freshId)
      ensures formData == old(formData) && calculatedFields == old(calculatedFields)
      ensures isInitialSetupState == old(isInitialSetupState)
    {
      var valid := Validate();
      ValidIff(formData, isInitialSetupState, existingPayrollData, payrollSchema);
      if valid {
        saved := Some(Payload(formData, calculatedFields, employeeId, existingPayrollData, freshId));
      } else {
        saved := None;
      }
    }
  }
}
