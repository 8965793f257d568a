/**
 * src/modals/RecordModal.jsx: the older add/edit employee form, keyed by `id`
 * and used by src/pages/HomePage.jsx. It differs from the `internalId` form
 * in that it fills every field of a new record (the `employeeId` field with
 * the proposed id), requires on creation every key but `id`, says "is
 * required" on edit, and names the field in its email message.
 */
module RecordModal {
  import opened JsValues
  import opened Schema
  import FormChecks

  /** The key this form gives a new record's fresh id. */
  const IdKey := "id"

  /** What the opening effect stores under field `f` of a new record: every field is filled. */
  function NewFieldValue(f: FieldDef, nextEmployeeId: string): Option<Value>
  {
    if f.key == EmployeeIdKey then Some(Str(nextEmployeeId)) else Some(DefaultOrBlank(f))
  }

  function Starter(nextEmployeeId: string): FieldDef -> Option<Value>
  {
    f => NewFieldValue(f, nextEmployeeId)
  }

  /** The form data the opening effect builds: a copy of the edited record, or a new one. */
  function InitialFormData(currentRecord: Option<Record>, allFields: seq<FieldDef>, nextEmployeeId: string,
    freshId: string): Record
  {
    match currentRecord
    case Some(r) => r
    case None => FormChecks.Fill(map[IdKey := Str(freshId)], allFields, Starter(nextEmployeeId))
  }

  /**
   * A new record: `employeeId` set to the proposed next id, every other field
   * at its default or "", and `id` fresh unless a field of that key overwrote
   * it; no other key.
   */
  lemma NewFormData(allFields: seq<FieldDef>, nextEmployeeId: string, freshId: string)
    requires UniqueKeys(allFields)
    ensures var data := InitialFormData(None, allFields, nextEmployeeId, freshId);
      && (IdKey !in Keys(allFields) ==> Get(data, IdKey) == Some(Str(freshId)))
      && (forall i :: 0 <= i < |allFields| ==>
        Get(data, allFields[i].key) ==
          Some(if allFields[i].key == EmployeeIdKey then Str(nextEmployeeId) else DefaultOrBlank(allFields[i])))
      && forall k :: k in data <==> k == IdKey || k in Keys(allFields)
  {
    var start := Starter(nextEmployeeId);
    var data0 := map[IdKey := Str(freshId)];
    FormChecks.FillKeys(data0, allFields, start);
    FormChecks.FillAt(data0, allFields, start, IdKey);
    forall i | 0 <= i < |allFields|
      ensures Get(FormChecks.Fill(data0, allFields, start), allFields[i].key) ==
        Some(if allFields[i].key == EmployeeIdKey then Str(nextEmployeeId) else DefaultOrBlank(allFields[i]))
    {
      FormChecks.FillAt(data0, allFields, start, allFields[i].key);
    }
    forall k | k in Keys(allFields)
      ensures FormChecks.FilledKey(allFields, start, k)
    {
      var i :| 0 <= i < |allFields| && Keys(allFields)[i] == k;
      assert start(allFields[i]).Some?;
    }
    forall k | FormChecks.FilledKey(allFields, start, k)
      ensures k in Keys(allFields)
    {
      var i :| 0 <= i < |allFields| && allFields[i].key == k && start(allFields[i]).Some?;
      assert Keys(allFields)[i] == k;
    }
    if IdKey !in Keys(allFields) {
      forall i | 0 <= i < |allFields|
        ensures allFields[i].key != IdKey
      {
        assert Keys(allFields)[i] == allFields[i].key;
      }
    }
  }

  // ---------------------------------------------------------------- validation

  /**
   * What `validate` checks of field `f`: on creation every key but `id` must
   * be non-empty; on edit only the `isRequired` ones, with another message.
   */
  function CheckOf(f: FieldDef, formData: Record, creating: bool, show: real -> string): Option<FormChecks.Check>
  {
    Some(FormChecks.Check(FormChecks.StringValue(Get(formData, f.key), show),
      if creating then f.key != IdKey else f.isRequired,
      if creating then f.labelText + " cannot be empty." else f.labelText + " is required.",
      "Invalid email format for " + f.labelText + ".", "Phone number must contain 7 to 15 digits."))
  }

  function Checker(formData: Record, creating: bool, show: real -> string): FieldDef -> Option<FormChecks.Check>
  {
    f => CheckOf(f, formData, creating, show)
  }

  /** The errors `validate` collects; `creating` is `!currentRecord`. */
  function Errors(allFields: seq<FieldDef>, formData: Record, creating: bool, show: real -> string): Record
  {
    FormChecks.Collect(allFields, Checker(formData, creating, show))
  }

  /**
   * The error of each field, with distinct keys: the required message for a
   * required blank one; otherwise the email or the phone message for a badly
   * formatted one; else none.
   */
  lemma FieldErrors(allFields: seq<FieldDef>, formData: Record, creating: bool, show: real -> string, i: nat)
    requires UniqueKeys(allFields) && i < |allFields|
    ensures var f := allFields[i];
      var text := FormChecks.StringValue(Get(formData, f.key), show);
      Get(Errors(allFields, formData, creating, show), f.key) ==
        if creating && f.key != IdKey && text == "" then Some(Str(f.labelText + " cannot be empty."))
        else if !creating && f.isRequired && text == "" then Some(Str(f.labelText + " is required."))
        else if FormChecks.FormatBad(f.kind, text) then
          Some(Str(if f.kind == Email then "Invalid email format for " + f.labelText + "."
            else "Phone number must contain 7 to 15 digits."))
        else None
  {
    var f := allFields[i];
    FormChecks.CollectAt(allFields, Checker(formData, creating, show), i);
    FormChecks.ApplyMessage(map[], f, CheckOf(f, formData, creating, show).value);
  }

  /** Creating is stricter than editing: any key but `id` that fails an edit fails a creation. */
  lemma CreationStricterThanEdit(allFields: seq<FieldDef>, formData: Record, show: real -> string)
    ensures forall k :: k != IdKey && k in Errors(allFields, formData, false, show) ==>
      k in Errors(allFields, formData, true, show)
  {
    var edit := Checker(formData, false, show);
    var create := Checker(formData, true, show);
    FormChecks.CollectKeys(allFields, edit);
    FormChecks.CollectKeys(allFields, create);
    forall k | k != IdKey && FormChecks.FailingKey(allFields, edit, k)
      ensures FormChecks.FailingKey(allFields, create, k)
    {
      var i :| 0 <= i < |allFields| && allFields[i].key == k && FormChecks.FailsUnder(allFields[i], edit);
      assert FormChecks.FailsUnder(allFields[i], create);
    }
  }

  // ---------------------------------------------------------------- the component

  class RecordForm {
    const currentRecord: Option<Record>
    const allFields: seq<FieldDef>
    const nextEmployeeId: string
    const show: real -> string

    var formData: Record
    var errors: Record

    /** The component as first rendered, before its effect runs. */
    constructor(currentRecord: Option<Record>, allFields: seq<FieldDef>, nextEmployeeId: string, show: real -> string)
      ensures this.currentRecord == currentRecord && this.allFields == allFields
      ensures this.nextEmployeeId == nextEmployeeId && this.show == show
      ensures formData == map[] && errors == map[]
    {
      this.currentRecord := currentRecord;
      this.allFields := allFields;
      this.nextEmployeeId := nextEmployeeId;
      this.show := show;
      formData, errors := map[], map[];
    }

    /** The effect that runs when the modal opens. */
    method Open(freshId: string)
      modifies this
      ensures formData == InitialFormData(currentRecord, allFields, nextEmployeeId, freshId)
      ensures errors == map[]
    {
      var initialData: Record;
      if currentRecord.Some? {
        initialData := currentRecord.value;
      } else {
        initialData := map[IdKey := Str(freshId)];
        var i := 0;
        while i < |allFields|
          invariant 0 <= i <= |allFields|
          invariant initialData == FormChecks.Fill(map[IdKey := Str(freshId)], allFields[..i], Starter(nextEmployeeId))
        {
          var field := allFields[i];
          if field.key == EmployeeIdKey {
            initialData := initialData[field.key := Str(nextEmployeeId)];
          } else {
            initialData := initialData[field.key := DefaultOrBlank(field)];
          }
          assert allFields[..i + 1][..i] == allFields[..i];
          i := i + 1;
        }
        assert allFields[..i] == allFields;
      }
      formData := initialData;
      errors := map[];
    }

    /** `handleChange`: one key changes; a pending error on it is cleared. */
    method HandleChange(key: string, value: Value, kind: FieldType)
      modifies this
      ensures formData == old(formData)[key := FormChecks.ParsedIfNumber(kind, value)]
      ensures Truthy(Get(old(errors), key)) ==> errors == old(errors)[key := Null]
      ensures !Truthy(Get(old(errors), key)) ==> errors == old(errors)
    {
      formData := formData[key := FormChecks.ParsedIfNumber(kind, value)];
      if Truthy(Get(errors, key)) {
        errors := errors[key := Null];
      }
    }

    /** `validate`: collects the errors in field order; valid when there are none. */
    method Validate() returns (valid: bool)
      modifies this
      ensures errors == Errors(allFields, formData, currentRecord.None?, show)
      ensures valid <==> |errors| == 0
      ensures valid <==> forall i :: 0 <= i < |allFields| ==>
        !FormChecks.FailsUnder(allFields[i], Checker(formData, currentRecord.None?, show))
      ensures formData == old(formData)
    {
      var creating := currentRecord.None?;
      var newErrors: Record := map[];
      var i := 0;
      while i < |allFields|
        invariant 0 <= i <= |allFields|
        invariant newErrors == FormChecks.Collect(allFields[..i], Checker(formData, creating, show))
      {
        var field := allFields[i];
        ghost var check := Checker(formData, creating, show);
        assert allFields[..i + 1][..i] == allFields[..i];
        assert FormChecks.Collect(allFields[..i + 1], check) == FormChecks.Apply(newErrors, field, check(field).value);
        var stringValue := FormChecks.StringValue(Get(formData, field.key), show);
        ghost var prev := newErrors;
        if creating {
          if stringValue == "" && field.key != IdKey {
            newErrors := newErrors[field.key := Str(field.labelText + " cannot be empty.")];
          }
        } else {
          if field.isRequired && stringValue == "" {
            newErrors := newErrors[field.key := Str(field.labelText + " is required.")];
          }
        }
        newErrors := FormChecks.FormatCheck(newErrors, field.key, field.kind, stringValue,
          "Invalid email format for " + field.labelText + ".", "Phone number must contain 7 to 15 digits.");
        assert newErrors == FormChecks.Apply(prev, field, check(field).value);
        i := i + 1;
      }
      assert allFields[..i] == allFields;
      errors := newErrors;
      FormChecks.CollectEmptyIff(allFields, Checker(formData, creating, show));
      valid := |newErrors| == 0;
    }

    /** `handleSubmit`: `onSave` receives the form data only when it validates. */
    method HandleSubmit() returns (saved: Option<Record>)
      modifies this
      ensures errors == Errors(allFields, formData, currentRecord.None?, show)
      ensures saved.Some? <==> |errors| == 0
      ensures saved.Some? ==> saved.value == formData
      ensures formData == old(formData)
    {
      var valid := Validate();
      saved := if valid then Some(formData) else None;
    }
  }
}
