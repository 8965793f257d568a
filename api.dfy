/**
 * src/api.js: the local record store. Two collections (employees keyed by
 * `internalId`, payrolls upserted by `employeeId`) and two column-preference
 * lists, each held under its own storage key. The storage item is an
 * `Option`: `None` is a key that was never written.
 */
module Api {
  import opened JsValues
  import opened Schema

  // ---------------------------------------------------------------- collection operations

  /** `{...r, [key]: Str(id)}`: a record stamped with a fresh id, overriding any it had. */
  function WithId(r: Record, key: string, id: string): (s: Record)
    ensures Get(s, key) == Some(Str(id))
    ensures forall k :: k != key ==> Get(s, k) == Get(r, k)
  {
    r[key := Str(id)]
  }

  /** `r[key] === v`. */
  predicate Matches(r: Record, key: string, v: Option<Value>)
  {
    StrictEquals(Get(r, key), v)
  }

  /** `records.map((r) => r[key] === v ? {...r, ...data} : r)`. */
  function MergeMatching(records: seq<Record>, key: string, v: Option<Value>, data: Record): seq<Record>
  {
    seq(|records|, i requires 0 <= i < |records| => if Matches(records[i], key, v) then records[i] + data else records[i])
  }

  /** `records.filter((r) => r[key] !== v)`. */
  function RemoveMatching(records: seq<Record>, key: string, v: Option<Value>): (kept: seq<Record>)
    ensures |kept| <= |records|
    ensures forall r :: r in kept ==> r in records && !Matches(r, key, v)
    ensures forall r :: r in records && !Matches(r, key, v) ==> r in kept
  {
    if records == [] then []
    else
      var rest := RemoveMatching(records[1..], key, v);
      assert forall r :: r in records <==> r == records[0] || r in records[1..];
      if Matches(records[0], key, v) then rest else [records[0]] + rest
  }

  /** `records.findIndex((r) => r[key] === v)`, `None` for -1. */
  function FindFirst(records: seq<Record>, key: string, v: Option<Value>): (i: Option<nat>)
    ensures i.Some? ==> i.value < |records| && Matches(records[i.value], key, v)
    ensures i.Some? ==> forall j :: 0 <= j < i.value ==> !Matches(records[j], key, v)
    ensures i.None? ==> forall j :: 0 <= j < |records| ==> !Matches(records[j], key, v)
  {
    if records == [] then None
    else if Matches(records[0], key, v) then Some(0)
    else match FindFirst(records[1..], key, v)
      case None => None
      case Some(j) => Some(j + 1)
  }

  /** `records.find((r) => r[key] === v) || null`. */
  function FindRecord(records: seq<Record>, key: string, v: Option<Value>): (r: Option<Record>)
  {
    match FindFirst(records, key, v)
    case Some(i) => Some(records[i])
    case None => None
  }

  /** A stored list, or `[]` when the storage key is absent. */
  function StoredOrEmpty<T>(stored: Option<seq<T>>): (items: seq<T>)
    ensures stored.None? ==> items == []
    ensures stored.Some? ==> items == stored.value
  {
    match stored
    case Some(items) => items
    case None => []
  }

  // ---------------------------------------------------------------- lemmas on the collection operations

  /** The merge visits every record once: same length, matching records merged, others untouched. */
  lemma MergeMatchingAt(records: seq<Record>, key: string, v: Option<Value>, data: Record, i: nat)
    requires i < |records|
    ensures |MergeMatching(records, key, v, data)| == |records|
    ensures Matches(records[i], key, v) ==>
      forall k :: Get(MergeMatching(records, key, v, data)[i], k) == (if k in data then Get(data, k) else Get(records[i], k))
    ensures !Matches(records[i], key, v) ==> MergeMatching(records, key, v, data)[i] == records[i]
  {
  }

  /** An id nobody holds leaves the collection exactly as it was, without error. */
  lemma MergeMatchingUnknown(records: seq<Record>, key: string, v: Option<Value>, data: Record)
    requires forall r :: r in records ==> !Matches(r, key, v)
    ensures MergeMatching(records, key, v, data) == records
  {
  }

  /** Removal keeps the survivors in their order: it distributes over concatenation. */
  lemma {:induction false} RemoveMatchingAppend(a: seq<Record>, b: seq<Record>, key: string, v: Option<Value>)
    ensures RemoveMatching(a + b, key, v) == RemoveMatching(a, key, v) + RemoveMatching(b, key, v)
  {
    if a != [] {
      var ab := a + b;
      assert ab[0] == a[0] && ab[1..] == a[1..] + b;
      RemoveMatchingAppend(a[1..], b, key, v);
      var rest := RemoveMatching(a[1..], key, v) + RemoveMatching(b, key, v);
      assert RemoveMatching(ab[1..], key, v) == rest;
      if Matches(a[0], key, v) {
        assert RemoveMatching(ab, key, v) == rest;
      } else {
        assert RemoveMatching(ab, key, v) == [a[0]] + rest;
      }
    } else {
      assert a + b == b;
    }
  }

  /** Removing an id nobody holds is a no-op. */
  lemma {:induction false} RemoveMatchingAbsent(records: seq<Record>, key: string, v: Option<Value>)
    requires forall r :: r in records ==> !Matches(r, key, v)
    ensures RemoveMatching(records, key, v) == records
  {
    if records != [] {
      RemoveMatchingAbsent(records[1..], key, v);
    }
  }

  /** Exactly the matching records go: the removed count is the number of matches. */
  function CountMatching(records: seq<Record>, key: string, v: Option<Value>): nat
  {
    if records == [] then 0
    else (if Matches(records[0], key, v) then 1 else 0) + CountMatching(records[1..], key, v)
  }

  lemma {:induction false} RemoveMatchingCount(records: seq<Record>, key: string, v: Option<Value>)
    ensures |RemoveMatching(records, key, v)| == |records| - CountMatching(records, key, v)
  {
    if records != [] {
      RemoveMatchingCount(records[1..], key, v);
    }
  }

  /** `find` gives the first match, or null when there is none. */
  lemma FindRecordFirst(records: seq<Record>, key: string, v: Option<Value>)
    ensures FindRecord(records, key, v).None? <==> forall r :: r in records ==> !Matches(r, key, v)
    ensures FindRecord(records, key, v).Some? ==>
      exists i :: 0 <= i < |records| && FindRecord(records, key, v) == Some(records[i])
        && Matches(records[i], key, v) && forall j :: 0 <= j < i ==> !Matches(records[j], key, v)
  {
    var f := FindFirst(records, key, v);
    if f.None? {
      forall r | r in records
        ensures !Matches(r, key, v)
      {
        var j :| 0 <= j < |records| && records[j] == r;
      }
    } else {
      assert records[f.value] in records;
    }
  }

  // ---------------------------------------------------------------- payroll upsert

  /**
   * `!defaultPayrollSchema.find((f) => f.key === "disbursementDate").isEditableAfterCreation`:
   * the date is locked unless the flag is truthy.
   */
  const DisbursementDateLocked: bool := DisbursementDateField.isEditableAfterCreation != Some(true)

  lemma DisbursementDateIsLocked()
    ensures FindField(PayrollSchema, DisbursementDateKey) == Some(DisbursementDateField)
    ensures DisbursementDateLocked
  {
    DisbursementDateFrozen();
  }

  /** The record an update of `original` with `payrollData` saves. */
  function UpdatedPayroll(original: Record, payrollData: Record): (saved: Record)
  {
    var dataToSave :=
      if Truthy(Get(original, DisbursementDateKey)) && DisbursementDateLocked
      then payrollData[DisbursementDateKey := original[DisbursementDateKey]]
      else payrollData;
    original + dataToSave
  }

  /** Every submitted field wins, except a set disbursement date, which is kept. */
  lemma UpdatedPayrollFields(original: Record, payrollData: Record, k: string)
    ensures Truthy(Get(original, DisbursementDateKey)) && k == DisbursementDateKey ==>
      Get(UpdatedPayroll(original, payrollData), k) == Get(original, k)
    ensures !Truthy(Get(original, DisbursementDateKey)) || k != DisbursementDateKey ==>
      Get(UpdatedPayroll(original, payrollData), k) == if k in payrollData then Get(payrollData, k) else Get(original, k)
  {
    DisbursementDateIsLocked();
  }

  /** `addOrUpdatePayroll` on values: the new collection and the saved record. */
  function UpsertPayroll(payrolls: seq<Record>, payrollData: Record, freshId: string): (seq<Record>, Record)
  {
    match FindFirst(payrolls, EmployeeIdKey, Get(payrollData, EmployeeIdKey))
    case Some(i) =>
      var saved := UpdatedPayroll(payrolls[i], payrollData);
      (payrolls[i := saved], saved)
    case None =>
      var saved := WithId(payrollData, InternalIdKey, freshId);
      (payrolls + [saved], saved)
  }

  /**
   * An upsert either replaces the first record with the same `employeeId`
   * in place (same length) or appends the stamped input (one longer); every
   * other record stays where it was.
   */
  lemma UpsertPayrollShape(payrolls: seq<Record>, payrollData: Record, freshId: string)
    ensures var (after, saved) := UpsertPayroll(payrolls, payrollData, freshId);
      var v := Get(payrollData, EmployeeIdKey);
      && ((exists r :: r in payrolls && Matches(r, EmployeeIdKey, v)) ==>
        exists i :: 0 <= i < |payrolls| && Matches(payrolls[i], EmployeeIdKey, v)
          && (forall j :: 0 <= j < i ==> !Matches(payrolls[j], EmployeeIdKey, v))
          && after == payrolls[i := saved] && saved == UpdatedPayroll(payrolls[i], payrollData))
      && ((forall r :: r in payrolls ==> !Matches(r, EmployeeIdKey, v)) ==>
        after == payrolls + [saved] && saved == WithId(payrollData, InternalIdKey, freshId))
  {
    var v := Get(payrollData, EmployeeIdKey);
    var f := FindFirst(payrolls, EmployeeIdKey, v);
    if f.None? {
      forall r | r in payrolls
        ensures !Matches(r, EmployeeIdKey, v)
      {
        var j :| 0 <= j < |payrolls| && payrolls[j] == r;
      }
    } else {
      assert payrolls[f.value] in payrolls;
    }
  }

  /** The payroll collection holds at most one record per `employeeId`. */
  predicate OnePerEmployee(payrolls: seq<Record>)
  {
    forall i, j :: 0 <= i < j < |payrolls| ==> !Matches(payrolls[i], EmployeeIdKey, Get(payrolls[j], EmployeeIdKey))
  }

  /**
   * An upsert keeps one record per employee: an update leaves the matched
   * record's `employeeId` as it was, and an append happens only when no
   * record has the new one.
   */
  lemma UpsertKeepsOnePerEmployee(payrolls: seq<Record>, payrollData: Record, freshId: string)
    requires OnePerEmployee(payrolls)
    ensures OnePerEmployee(UpsertPayroll(payrolls, payrollData, freshId).0)
  {
    var v := Get(payrollData, EmployeeIdKey);
    var after := UpsertPayroll(payrolls, payrollData, freshId).0;
    match FindFirst(payrolls, EmployeeIdKey, v)
    case Some(k) =>
      var saved := UpdatedPayroll(payrolls[k], payrollData);
      assert Get(saved, EmployeeIdKey) == Get(payrolls[k], EmployeeIdKey);
      forall i, j | 0 <= i < j < |after|
        ensures !Matches(after[i], EmployeeIdKey, Get(after[j], EmployeeIdKey))
      {
        if i == k || j == k {
          assert !Matches(payrolls[i], EmployeeIdKey, Get(payrolls[j], EmployeeIdKey));
        }
      }
    case None =>
      var saved := WithId(payrollData, InternalIdKey, freshId);
      assert after == payrolls + [saved];
      assert Get(saved, EmployeeIdKey) == v;
  }

  /** Deleting by `employeeId` keeps one record per employee: the kept records are a subsequence. */
  lemma {:induction false} RemoveKeepsOnePerEmployee(payrolls: seq<Record>, v: Option<Value>)
    requires OnePerEmployee(payrolls)
    ensures OnePerEmployee(RemoveMatching(payrolls, EmployeeIdKey, v))
  {
    if payrolls != [] {
      var rest := payrolls[1..];
      assert OnePerEmployee(rest) by {
        forall i, j | 0 <= i < j < |rest|
          ensures !Matches(rest[i], EmployeeIdKey, Get(rest[j], EmployeeIdKey))
        {
          assert rest[i] == payrolls[i + 1] && rest[j] == payrolls[j + 1];
        }
      }
      RemoveKeepsOnePerEmployee(rest, v);
      var kept := RemoveMatching(rest, EmployeeIdKey, v);
      if !Matches(payrolls[0], EmployeeIdKey, v) {
        var r := [payrolls[0]] + kept;
        forall i, j | 0 <= i < j < |r|
          ensures !Matches(r[i], EmployeeIdKey, Get(r[j], EmployeeIdKey))
        {
          if i == 0 {
            assert r[j] in kept;
            var m :| 0 <= m < |rest| && rest[m] == r[j];
            assert payrolls[m + 1] == r[j];
          } else {
            assert r[i] == kept[i - 1] && r[j] == kept[j - 1];
          }
        }
      }
    }
  }

  /** After an upsert, looking the employee up finds the saved record. */
  lemma UpsertThenFind(payrolls: seq<Record>, payrollData: Record, freshId: string)
    requires Get(payrollData, EmployeeIdKey) != Some(NaN)
    ensures var (after, saved) := UpsertPayroll(payrolls, payrollData, freshId);
      FindRecord(after, EmployeeIdKey, Get(payrollData, EmployeeIdKey)) == Some(saved)
  {
    var v := Get(payrollData, EmployeeIdKey);
    var (after, saved) := UpsertPayroll(payrolls, payrollData, freshId);
    match FindFirst(payrolls, EmployeeIdKey, v)
    case Some(i) =>
      UpdatedPayrollFields(payrolls[i], payrollData, EmployeeIdKey);
      assert Get(saved, EmployeeIdKey) == Get(payrolls[i], EmployeeIdKey) by {
        if EmployeeIdKey in payrollData {
          assert Get(saved, EmployeeIdKey) == v;
        }
      }
      FindFirstAfterUpdate(payrolls, i, saved, v);
    case None =>
      FindFirstAppended(payrolls, saved, v);
  }

  lemma {:induction false} FindFirstAfterUpdate(records: seq<Record>, i: nat, r: Record, v: Option<Value>)
    requires FindFirst(records, EmployeeIdKey, v) == Some(i)
    requires Get(r, EmployeeIdKey) == Get(records[i], EmployeeIdKey)
    ensures FindFirst(records[i := r], EmployeeIdKey, v) == Some(i)
  {
    if i > 0 {
      FindFirstAfterUpdate(records[1..], i - 1, r, v);
      assert records[i := r][1..] == records[1..][i - 1 := r];
    }
  }

  lemma {:induction false} FindFirstAppended(records: seq<Record>, r: Record, v: Option<Value>)
    requires FindFirst(records, EmployeeIdKey, v).None?
    requires Matches(r, EmployeeIdKey, v)
    ensures FindFirst(records + [r], EmployeeIdKey, v) == Some(|records|)
  {
    if records != [] {
      FindFirstAppended(records[1..], r, v);
      assert (records + [r])[1..] == records[1..] + [r];
    }
  }

  // ---------------------------------------------------------------- payroll columns

  /** The payroll fields shown when no column preference is saved, in schema order. */
  function DefaultPayrollColumns(fields: seq<FieldDef>): (keys: seq<string>)
    ensures forall k :: k in keys <==> exists f :: f in fields && f.key == k && ShownByDefault(f)
  {
    if fields == [] then []
    else
      var rest := DefaultPayrollColumns(fields[1..]);
      assert forall f :: f in fields <==> f == fields[0] || f in fields[1..];
      if ShownByDefault(fields[0]) then [fields[0].key] + rest else rest
  }

  predicate ShownByDefault(f: FieldDef)
  {
    f.alwaysVisibleInPayroll || f.isHighlyVisible
      || f.key in ["employeeFullName", "payrollStatus", "disbursementDate", "basicSalary"]
  }

  /** `employeeId` put in front when missing, then de-duplicated. */
  function PinnedColumns(keys: seq<string>): (r: seq<string>)
    ensures NoDuplicates(r) && EmployeeIdKey in r
    ensures forall k :: k in r <==> k == EmployeeIdKey || k in keys
    ensures EmployeeIdKey !in keys ==> r[0] == EmployeeIdKey
  {
    var withId := if EmployeeIdKey in keys then keys else [EmployeeIdKey] + keys;
    DedupPrefix([EmployeeIdKey], keys);
    Dedup(withId)
  }

  /** A list already pinned and free of duplicates is its own pinned form. */
  lemma PinnedColumnsOfPinned(keys: seq<string>)
    requires NoDuplicates(keys) && EmployeeIdKey in keys
    ensures PinnedColumns(keys) == keys
  {
    DedupOfDistinct(keys);
  }

  /** What `getVisiblePayrollColumns` returns for a stored preference and a payroll schema. */
  function VisiblePayrollColumns(saved: Option<seq<string>>, schema: seq<FieldDef>): seq<string>
  {
    PinnedColumns(match saved case Some(keys) => keys case None => DefaultPayrollColumns(schema))
  }

  /** `fields.find((f) => f.key === "employeeId" && f.alwaysVisibleInPayroll)`. */
  function FindPinnedEmployeeId(fields: seq<FieldDef>): (r: Option<FieldDef>)
    ensures r.Some? ==> r.value in fields && r.value.key == EmployeeIdKey && r.value.alwaysVisibleInPayroll
    ensures r.None? ==> forall f :: f in fields ==> !(f.key == EmployeeIdKey && f.alwaysVisibleInPayroll)
  {
    if fields == [] then None
    else if fields[0].key == EmployeeIdKey && fields[0].alwaysVisibleInPayroll then Some(fields[0])
    else
      assert forall f :: f in fields <==> f == fields[0] || f in fields[1..];
      FindPinnedEmployeeId(fields[1..])
  }

  lemma EmployeeIdIsPinned()
    ensures FindPinnedEmployeeId(PayrollSchema) == Some(PayrollEmployeeIdField)
  {
    assert PayrollSchema[..5] == PayrollHeadFields;
    assert PayrollSchema[0].key != EmployeeIdKey;
    assert PayrollSchema[1] == PayrollEmployeeIdField;
  }

  /** The default columns of a concatenation are those of each part, in order. */
  lemma {:induction false} DefaultPayrollColumnsAppend(a: seq<FieldDef>, b: seq<FieldDef>)
    ensures DefaultPayrollColumns(a + b) == DefaultPayrollColumns(a) + DefaultPayrollColumns(b)
  {
    if a != [] {
      DefaultPayrollColumnsAppend(a[1..], b);
      assert (a + b)[1..] == a[1..] + b;
    } else {
      assert a + b == b;
    }
  }

  // ---------------------------------------------------------------- the store

  class RecordStore {
    /** `defaultPayrollSchema`. */
    const payrollSchema: seq<FieldDef>
    var employeeData: Option<seq<Record>>
    var payrollData: Option<seq<Record>>
    var visibleEmployeeColumns: Option<seq<string>>
    var visiblePayrollColumns: Option<seq<string>>

    /** An empty storage. */
    constructor()
      ensures payrollSchema == PayrollSchema
      ensures employeeData.None? && payrollData.None?
      ensures visibleEmployeeColumns.None? && visiblePayrollColumns.None?
    {
      payrollSchema := PayrollSchema;
      employeeData, payrollData := None, None;
      visibleEmployeeColumns, visiblePayrollColumns := None, None;
    }

    function Employees(): seq<Record>
      reads this
    {
      StoredOrEmpty(employeeData)
    }

    function Payrolls(): seq<Record>
      reads this
    {
      StoredOrEmpty(payrollData)
    }

    /** `fetchEmployees`: the stored list, `[]` when nothing is stored. */
    method FetchEmployees() returns (employees: seq<Record>)
      ensures employeeData.None? ==> employees == []
      ensures employeeData.Some? ==> employees == employeeData.value
    {
      employees := StoredOrEmpty(employeeData);
    }

    /** `addEmployee`: appends the input stamped with a fresh `internalId`. */
    method AddEmployee(employee: Record, freshId: string) returns (newEmployee: Record)
      modifies this
      ensures Get(newEmployee, InternalIdKey) == Some(Str(freshId))
      ensures forall k :: k != InternalIdKey ==> Get(newEmployee, k) == Get(employee, k)
      ensures employeeData == Some(old(Employees()) + [newEmployee])
      ensures payrollData == old(payrollData)
      ensures visibleEmployeeColumns == old(visibleEmployeeColumns) && visiblePayrollColumns == old(visiblePayrollColumns)
    {
      newEmployee := WithId(employee, InternalIdKey, freshId);
      var employees := FetchEmployees();
      employeeData := Some(employees + [newEmployee]);
    }

    /**
     * `updateEmployee`: merges the data over every record with that
     * `internalId`; returns the data stamped with the id, not the merged record.
     */
    method UpdateEmployee(internalId: Option<Value>, employee: Record) returns (result: Record)
      modifies this
      ensures Get(result, InternalIdKey) == internalId
      ensures forall k :: k != InternalIdKey ==> Get(result, k) == Get(employee, k)
      ensures employeeData == Some(MergeMatching(old(Employees()), InternalIdKey, internalId, employee))
      ensures payrollData == old(payrollData)
      ensures visibleEmployeeColumns == old(visibleEmployeeColumns) && visiblePayrollColumns == old(visiblePayrollColumns)
    {
      var employees := FetchEmployees();
      employeeData := Some(MergeMatching(employees, InternalIdKey, internalId, employee));
      result := Put(employee, InternalIdKey, internalId);
    }

    /** `deleteEmployee`: drops the records with that `internalId`; payrolls are not touched. */
    method DeleteEmployee(internalId: Option<Value>)
      modifies this
      ensures employeeData == Some(RemoveMatching(old(Employees()), InternalIdKey, internalId))
      ensures payrollData == old(payrollData)
      ensures visibleEmployeeColumns == old(visibleEmployeeColumns) && visiblePayrollColumns == old(visiblePayrollColumns)
    {
      var employees := FetchEmployees();
      employeeData := Some(RemoveMatching(employees, InternalIdKey, internalId));
    }

    /** `fetchPayrolls`: the stored list, `[]` when nothing is stored. */
    method FetchPayrolls() returns (payrolls: seq<Record>)
      ensures payrollData.None? ==> payrolls == []
      ensures payrollData.Some? ==> payrolls == payrollData.value
    {
      payrolls := StoredOrEmpty(payrollData);
    }

    /** `fetchPayrollByEmployeeId`: the first payroll with that `employeeId`, or null. */
    method FetchPayrollByEmployeeId(employeeId: Option<Value>) returns (payroll: Option<Record>)
      ensures payroll == FindRecord(Payrolls(), EmployeeIdKey, employeeId)
    {
      var payrolls := FetchPayrolls();
      payroll := FindRecord(payrolls, EmployeeIdKey, employeeId);
    }

    /** `addOrUpdatePayroll`: replaces the employee's payroll in place, or appends a new one. */
    method AddOrUpdatePayroll(payroll: Record, freshId: string) returns (savedPayroll: Record)
      modifies this
      ensures payrollData.Some?
      ensures (payrollData.value, savedPayroll) == UpsertPayroll(old(Payrolls()), payroll, freshId)
      ensures employeeData == old(employeeData)
      ensures visibleEmployeeColumns == old(visibleEmployeeColumns) && visiblePayrollColumns == old(visiblePayrollColumns)
    {
      var payrolls := FetchPayrolls();
      var existingPayrollIndex := FindFirst(payrolls, EmployeeIdKey, Get(payroll, EmployeeIdKey));
      if existingPayrollIndex.Some? {
        var originalPayroll := payrolls[existingPayrollIndex.value];
        var dataToSave := payroll;
        if Truthy(Get(originalPayroll, DisbursementDateKey)) && DisbursementDateLocked {
          dataToSave := dataToSave[DisbursementDateKey := originalPayroll[DisbursementDateKey]];
        }
        savedPayroll := originalPayroll + dataToSave;
        payrolls := payrolls[existingPayrollIndex.value := savedPayroll];
      } else {
        savedPayroll := WithId(payroll, InternalIdKey, freshId);
        payrolls := payrolls + [savedPayroll];
      }
      payrollData := Some(payrolls);
    }

    /** `deletePayrollByEmployeeId`: drops every payroll of that employee. */
    method DeletePayrollByEmployeeId(employeeId: Option<Value>)
      modifies this
      ensures payrollData == Some(RemoveMatching(old(Payrolls()), EmployeeIdKey, employeeId))
      ensures employeeData == old(employeeData)
      ensures visibleEmployeeColumns == old(visibleEmployeeColumns) && visiblePayrollColumns == old(visiblePayrollColumns)
    {
      var payrolls := FetchPayrolls();
      payrollData := Some(RemoveMatching(payrolls, EmployeeIdKey, employeeId));
    }

    /** `getVisibleEmployeeColumns`: the saved list, or null. */
    method GetVisibleEmployeeColumns() returns (keys: Option<seq<string>>)
      ensures keys == visibleEmployeeColumns
    {
      keys := visibleEmployeeColumns;
    }

    /** `saveVisibleEmployeeColumns`: stores the list as given. */
    method SaveVisibleEmployeeColumns(keys: seq<string>)
      modifies this
      ensures visibleEmployeeColumns == Some(keys)
      ensures employeeData == old(employeeData) && payrollData == old(payrollData)
      ensures visiblePayrollColumns == old(visiblePayrollColumns)
    {
      visibleEmployeeColumns := Some(keys);
    }

    /**
     * `getVisiblePayrollColumns`: the saved list, or the schema's default
     * columns, with `employeeId` put first when missing and duplicates dropped.
     */
    method GetVisiblePayrollColumns() returns (keys: seq<string>)
      ensures keys == VisiblePayrollColumns(visiblePayrollColumns, payrollSchema)
      ensures NoDuplicates(keys) && EmployeeIdKey in keys
    {
      var visibleKeys;
      if visiblePayrollColumns.Some? {
        visibleKeys := visiblePayrollColumns.value;
      } else {
        visibleKeys := DefaultPayrollColumns(payrollSchema);
      }
      if EmployeeIdKey !in visibleKeys {
        visibleKeys := [EmployeeIdKey] + visibleKeys;
      }
      keys := Dedup(visibleKeys);
    }

    /** `saveVisiblePayrollColumns`: stores the list pinned and de-duplicated. */
    method SaveVisiblePayrollColumns(keys: seq<string>)
      modifies this
      ensures visiblePayrollColumns == Some(PinnedColumns(keys))
      ensures employeeData == old(employeeData) && payrollData == old(payrollData)
      ensures visibleEmployeeColumns == old(visibleEmployeeColumns)
    {
      var payrollEmployeeIdField := FindPinnedEmployeeId(PayrollSchema);
      EmployeeIdIsPinned();
      var keysToSave := keys;
      if payrollEmployeeIdField.Some? && EmployeeIdKey !in keysToSave {
        keysToSave := [EmployeeIdKey] + keysToSave;
      }
      visiblePayrollColumns := Some(Dedup(keysToSave));
    }
  }

  /** Saving a column list and reading it back gives the saved, pinned list. */
  lemma SaveThenGetPayrollColumns(keys: seq<string>)
    ensures forall schema :: VisiblePayrollColumns(Some(PinnedColumns(keys)), schema) == PinnedColumns(keys)
  {
    PinnedColumnsOfPinned(PinnedColumns(keys));
  }
}
