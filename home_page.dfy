/**
 * src/pages/HomePage.jsx: the employee list page with its own `id`-keyed
 * copy of the record store. `LocalStore` is that copy (the local `api`
 * object over the two storage items it reads and writes); `HomeView` is the
 * page's state. `window.confirm` is a boolean input, `alert` the `refused`
 * result, and `generateInternalId` a fresh id passed in.
 */
module HomePage {
  import opened JsValues
  import opened Schema
  import Api
  import ListView
  import EmployeeUtils

  /** The key the local store gives each employee. */
  const IdKey := "id"

  // ---------------------------------------------------------------- default columns

  /** One of the keys the page shows when nothing is saved. */
  predicate IsDefaultColumn(k: string)
  {
    k == EmployeeIdKey || k == FullNameKey || k == "department" || k == StatusKey
  }

  /**
   * `schema.filter((f) => [...].includes(f.key)).map((f) => f.key)`, taken
   * over the schema's keys (filtering before or after the `map` is the same).
   */
  function DefaultKeysAmong(keys: seq<string>): (r: seq<string>)
    ensures |r| <= |keys|
    ensures forall k :: k in r <==> k in keys && IsDefaultColumn(k)
  {
    if keys == [] then []
    else
      var n := |keys| - 1;
      var prev := DefaultKeysAmong(keys[..n]);
      assert forall k :: k in keys <==> k in keys[..n] || k == keys[n];
      if IsDefaultColumn(keys[n]) then prev + [keys[n]] else prev
  }

  /** The default keys keep schema order: the filter distributes over concatenation. */
  lemma {:induction false} DefaultKeysAmongAppend(a: seq<string>, b: seq<string>)
    ensures DefaultKeysAmong(a + b) == DefaultKeysAmong(a) + DefaultKeysAmong(b)
  {
    if b != [] {
      var n := |b| - 1;
      assert (a + b)[..|a + b| - 1] == a + b[..n];
      DefaultKeysAmongAppend(a, b[..n]);
    } else {
      assert a + b == a;
    }
  }

  /** The visible keys when none are saved: the default ones, else the first (up to) four. */
  function DefaultColumnKeys(schema: seq<FieldDef>): seq<string>
  {
    var defaultKeys := DefaultKeysAmong(Keys(schema));
    if |defaultKeys| > 0 then defaultKeys
    else Keys(schema[..if |schema| < 4 then |schema| else 4])
  }

  /**
   * The defaults are the schema's default keys when it has any, and otherwise
   * its first four keys (all of them when fewer); only an empty schema gives
   * no column.
   */
  lemma DefaultColumnKeysChoice(schema: seq<FieldDef>)
    ensures var keys := DefaultColumnKeys(schema);
      && ((exists i :: 0 <= i < |schema| && IsDefaultColumn(schema[i].key)) ==>
        forall k :: k in keys <==> k in Keys(schema) && IsDefaultColumn(k))
      && ((forall i :: 0 <= i < |schema| ==> !IsDefaultColumn(schema[i].key)) ==>
        keys == Keys(schema)[..if |schema| < 4 then |schema| else 4])
      && (keys == [] <==> schema == [])
  {
    var d := DefaultKeysAmong(Keys(schema));
    if exists i :: 0 <= i < |schema| && IsDefaultColumn(schema[i].key) {
      var i :| 0 <= i < |schema| && IsDefaultColumn(schema[i].key);
      assert Keys(schema)[i] == schema[i].key;
      assert |d| > 0;
    } else {
      DefaultKeysAmongNone(Keys(schema));
      var m := if |schema| < 4 then |schema| else 4;
      assert Keys(schema[..m]) == Keys(schema)[..m];
    }
  }

  /** With the page's own schema the defaults are the four named columns, in schema order. */
  lemma LegacyDefaultColumns()
    ensures DefaultColumnKeys(LegacyEmployeeSchema) == [EmployeeIdKey, FullNameKey, "department", StatusKey]
  {
    var named := ["employeeId", "fullName", "department"];
    var others := ["jobTitle", "dateOfJoining", "email", "phoneNumber"];
    LegacyKeys();
    assert Keys(LegacyEmployeeSchema) == named + others + ["status"];
    NamedKeysDefault(named, ["status"]);
    OtherKeysNotDefault(others);
    DefaultKeysAmongSplit(named, others, ["status"]);
    assert named + ["status"] == [EmployeeIdKey, FullNameKey, "department", StatusKey];
  }

  /** Default keys, then keys that are not, then default keys: the middle run is dropped. */
  lemma DefaultKeysAmongSplit(named: seq<string>, others: seq<string>, last: seq<string>)
    requires forall i :: 0 <= i < |named| ==> IsDefaultColumn(named[i])
    requires forall i :: 0 <= i < |others| ==> !IsDefaultColumn(others[i])
    requires forall i :: 0 <= i < |last| ==> IsDefaultColumn(last[i])
    ensures DefaultKeysAmong(named + others + last) == named + last
  {
    DefaultKeysAmongAll(named);
    DefaultKeysAmongAll(last);
    DefaultKeysAmongNone(others);
    calc {
      DefaultKeysAmong(named + others + last);
      { DefaultKeysAmongAppend(named + others, last); }
      DefaultKeysAmong(named + others) + DefaultKeysAmong(last);
      { DefaultKeysAmongAppend(named, others); }
      DefaultKeysAmong(named) + DefaultKeysAmong(others) + DefaultKeysAmong(last);
      named + [] + last;
    }
    assert named + [] == named;
  }

  lemma NamedKeysDefault(named: seq<string>, last: seq<string>)
    requires named == ["employeeId", "fullName", "department"] && last == ["status"]
    ensures forall i :: 0 <= i < |named| ==> IsDefaultColumn(named[i])
    ensures forall i :: 0 <= i < |last| ==> IsDefaultColumn(last[i])
  {
  }

  lemma OtherKeysNotDefault(others: seq<string>)
    requires others == ["jobTitle", "dateOfJoining", "email", "phoneNumber"]
    ensures forall i :: 0 <= i < |others| ==> !IsDefaultColumn(others[i])
  {
  }

  lemma LegacyKeys()
    ensures Keys(LegacyEmployeeSchema) ==
      ["employeeId", "fullName", "department", "jobTitle", "dateOfJoining", "email", "phoneNumber", "status"]
  {
  }

  /** Keys that are all default columns are kept as they are. */
  lemma {:induction false} DefaultKeysAmongAll(keys: seq<string>)
    requires forall i :: 0 <= i < |keys| ==> IsDefaultColumn(keys[i])
    ensures DefaultKeysAmong(keys) == keys
  {
    if keys != [] {
      DefaultKeysAmongAll(keys[..|keys| - 1]);
    }
  }

  /** Keys none of which is a default column give none. */
  lemma {:induction false} DefaultKeysAmongNone(keys: seq<string>)
    requires forall i :: 0 <= i < |keys| ==> !IsDefaultColumn(keys[i])
    ensures DefaultKeysAmong(keys) == []
  {
    if keys != [] {
      DefaultKeysAmongNone(keys[..|keys| - 1]);
    }
  }

  /** The visible keys `loadData` sets: the saved list when there is one, else the defaults. */
  function VisibleOnLoad(saved: Option<seq<string>>, schema: seq<FieldDef>): (keys: seq<string>)
    ensures saved.Some? ==> keys == saved.value
    ensures saved.None? ==> keys == DefaultColumnKeys(schema)
  {
    match saved
    case Some(keys) => keys
    case None => DefaultColumnKeys(schema)
  }

  // ---------------------------------------------------------------- the list after a save

  /** `records.map((emp) => emp[key] === v ? r : emp)`. */
  function ReplaceMatching(records: seq<Record>, key: string, v: Option<Value>, r: Record): (rs: seq<Record>)
    ensures |rs| == |records|
    ensures forall i :: 0 <= i < |rs| ==> rs[i] == if Api.Matches(records[i], key, v) then r else records[i]
  {
    seq(|records|, i requires 0 <= i < |records| => if Api.Matches(records[i], key, v) then r else records[i])
  }

  /**
   * The page replaces an updated employee with the submitted data stamped
   * with the id, while the store merges the data over the stored record. The
   * two lists agree when the data carries every key of each record it
   * updates and no other id.
   */
  lemma ReplaceAgreesWithMerge(records: seq<Record>, v: Option<Value>, data: Record)
    requires Get(data, IdKey) == None || Get(data, IdKey) == v
    requires forall i :: 0 <= i < |records| && Api.Matches(records[i], IdKey, v) ==>
      records[i].Keys <= data.Keys + {IdKey}
    ensures Api.MergeMatching(records, IdKey, v, data) == ReplaceMatching(records, IdKey, v, Put(data, IdKey, v))
  {
    var merged := Api.MergeMatching(records, IdKey, v, data);
    var replaced := ReplaceMatching(records, IdKey, v, Put(data, IdKey, v));
    forall i | 0 <= i < |records| && Api.Matches(records[i], IdKey, v)
      ensures merged[i] == replaced[i]
    {
      var r := records[i];
      var a := r + data;
      var b := Put(data, IdKey, v);
      assert Get(r, IdKey) == v;
      forall k
        ensures Get(a, k) == Get(b, k)
      {
        if k == IdKey {
          assert Get(a, k) == v;
        }
      }
      assert a.Keys == b.Keys;
      assert a == b;
    }
  }

  // ---------------------------------------------------------------- the delete guard

  /** The first employee with that `id` is "Active" or "On Leave": the delete is refused. */
  predicate Guarded(employees: seq<Record>, id: Option<Value>)
  {
    match Api.FindRecord(employees, IdKey, id)
    case Some(e) => Get(e, StatusKey) == Some(Str("Active")) || Get(e, StatusKey) == Some(Str("On Leave"))
    case None => false
  }

  /**
   * The guard looks at the first employee with the id only: a later one with
   * the same id and an "Active" status goes with it.
   */
  lemma GuardChecksFirstMatchOnly(first: Record, second: Record, id: string)
    requires Get(first, IdKey) == Some(Str(id)) && Get(first, StatusKey) == Some(Str("Terminated"))
    requires Get(second, IdKey) == Some(Str(id)) && Get(second, StatusKey) == Some(Str("Active"))
    ensures !Guarded([first, second], Some(Str(id)))
    ensures Api.RemoveMatching([first, second], IdKey, Some(Str(id))) == []
  {
    assert Api.Matches(first, IdKey, Some(Str(id)));
    assert Api.FindFirst([first, second], IdKey, Some(Str(id))) == Some(0);
    assert [first, second][1..] == [second];
    assert [second][1..] == [];
  }

  // ---------------------------------------------------------------- search, columns, counts

  /** `allProfileFields.some(...)`: some field's value contains the lower-cased term. */
  predicate RowMatches(item: Record, fields: seq<FieldDef>, lowerSearchTerm: string, show: real -> string)
  {
    exists i :: 0 <= i < |fields| && ListView.ValueMatches(Get(item, fields[i].key), lowerSearchTerm, show)
  }

  function Matcher(fields: seq<FieldDef>, lowerSearchTerm: string, show: real -> string): Record -> bool
  {
    item => RowMatches(item, fields, lowerSearchTerm, show)
  }

  /** `filteredEmployeeData`: every row for an empty term, else the rows that match. */
  function Filtered(rows: seq<Record>, fields: seq<FieldDef>, searchTerm: string, show: real -> string): seq<Record>
  {
    if searchTerm == "" then rows else ListView.FilterRows(rows, Matcher(fields, ToLower(searchTerm), show))
  }

  /**
   * A non-empty term that occurs, ignoring case, in the text of a field's
   * value finds the row; a row with no field value containing it is not found.
   */
  lemma SearchFinds(rows: seq<Record>, fields: seq<FieldDef>, searchTerm: string, show: real -> string,
    item: Record, i: nat)
    requires searchTerm != "" && item in rows && i < |fields|
    requires ListView.ValueMatches(Get(item, fields[i].key), ToLower(searchTerm), show)
    ensures item in Filtered(rows, fields, searchTerm, show)
    ensures forall x :: x in Filtered(rows, fields, searchTerm, show) ==>
      x in rows && exists j :: 0 <= j < |fields| && ListView.ValueMatches(Get(x, fields[j].key), ToLower(searchTerm), show)
  {
    assert RowMatches(item, fields, ToLower(searchTerm), show);
  }

  /** `allProfileFields.filter((field) => visibleColumnKeys.includes(field.key))`. */
  function ColumnsToDisplay(fields: seq<FieldDef>, visible: seq<string>): (columns: seq<FieldDef>)
    ensures |columns| <= |fields|
    ensures forall f :: f in columns <==> f in fields && f.key in visible
  {
    if fields == [] then []
    else
      var n := |fields| - 1;
      var prev := ColumnsToDisplay(fields[..n], visible);
      assert forall f :: f in fields <==> f in fields[..n] || f == fields[n];
      if fields[n].key in visible then prev + [fields[n]] else prev
  }

  /** The displayed columns keep schema order, whatever the order of the visible keys. */
  lemma {:induction false} ColumnsToDisplayAppend(a: seq<FieldDef>, b: seq<FieldDef>, visible: seq<string>)
    ensures ColumnsToDisplay(a + b, visible) == ColumnsToDisplay(a, visible) + ColumnsToDisplay(b, visible)
  {
    if b != [] {
      var n := |b| - 1;
      assert (a + b)[..|a + b| - 1] == a + b[..n];
      ColumnsToDisplayAppend(a, b[..n], visible);
    } else {
      assert a + b == a;
    }
  }

  function HasStatus(status: string): Record -> bool
  {
    r => Get(r, StatusKey) == Some(Str(status))
  }

  /** `employeeData.filter((emp) => emp.status === status).length`. */
  function StatusCount(employees: seq<Record>, status: string): nat
  {
    |ListView.FilterRows(employees, HasStatus(status))|
  }

  /** The three status counts never add up to more than the employees. */
  lemma {:induction false} StatusCountsAtMostTotal(employees: seq<Record>)
    ensures StatusCount(employees, "Active") + StatusCount(employees, "On Leave") + StatusCount(employees, "Terminated")
      <= |employees|
  {
    if employees != [] {
      StatusCountsAtMostTotal(employees[..|employees| - 1]);
    }
  }

  // ---------------------------------------------------------------- the page

  /** The effect that keeps the current page in range, with this page's four cases. */
  function ClampedPage(currentPage: int, totalPages: nat, rowCount: nat): int
  {
    if currentPage > totalPages && totalPages > 0 then totalPages
    else if currentPage == 0 && totalPages == 0 && rowCount == 0 then 1
    else if currentPage == 0 && totalPages > 0 then 1
    else if currentPage > totalPages && totalPages == 0 && rowCount == 0 then 1
    else currentPage
  }

  /**
   * From a page that is not negative the clamp reaches a real page: between
   * 1 and the page count when there are rows, 1 when there are none; a page
   * in range is kept and clamping again changes nothing. A negative page is
   * left as it is.
   */
  lemma ClampedPageInRange(currentPage: int, rowCount: nat)
    ensures var total := ListView.TotalPages(rowCount);
      var p := ClampedPage(currentPage, total, rowCount);
      && (currentPage >= 0 && rowCount > 0 ==> 1 <= p <= total)
      && (currentPage >= 0 && rowCount == 0 ==> p == 1)
      && (1 <= currentPage <= total ==> p == currentPage)
      && (currentPage < 0 ==> p == currentPage)
      && ClampedPage(p, total, rowCount) == p
  {
  }

  // ---------------------------------------------------------------- the local store

  /** The page's own storage: the employee list and the saved visible keys. */
  class LocalStore {
    /** The schema `fetchEmployeeSchema` serves. */
    const schema: seq<FieldDef>
    var employeeData: Option<seq<Record>>
    var visibleColumns: Option<seq<string>>

    constructor(employeeData: Option<seq<Record>>, visibleColumns: Option<seq<string>>)
      ensures schema == LegacyEmployeeSchema
      ensures this.employeeData == employeeData && this.visibleColumns == visibleColumns
    {
      schema := LegacyEmployeeSchema;
      this.employeeData := employeeData;
      this.visibleColumns := visibleColumns;
    }

    function Employees(): seq<Record>
      reads this
    {
      Api.StoredOrEmpty(employeeData)
    }

    /** `fetchEmployeeSchema`: the page's own eight-field schema. */
    method FetchEmployeeSchema() returns (fields: seq<FieldDef>)
      ensures fields == schema
    {
      fields := schema;
    }

    /** `fetchEmployees`: the stored list, `[]` when nothing is stored. */
    method FetchEmployees() returns (employees: seq<Record>)
      ensures employeeData.None? ==> employees == []
      ensures employeeData.Some? ==> employees == employeeData.value
    {
      employees := Api.StoredOrEmpty(employeeData);
    }

    /** `addEmployee`: appends the input stamped with a fresh `id`. */
    method AddEmployee(employee: Record, freshId: string) returns (newEmployee: Record)
      modifies this
      ensures newEmployee == Api.WithId(employee, IdKey, freshId)
      ensures employeeData == Some(old(Employees()) + [newEmployee])
      ensures visibleColumns == old(visibleColumns)
    {
      newEmployee := Api.WithId(employee, IdKey, freshId);
      var employees := FetchEmployees();
      employeeData := Some(employees + [newEmployee]);
    }

    /** `updateEmployee`: merges the data over every record with that `id`; returns the data stamped with it. */
    method UpdateEmployee(internalId: Option<Value>, employee: Record) returns (result: Record)
      modifies this
      ensures result == Put(employee, IdKey, internalId)
      ensures employeeData == Some(Api.MergeMatching(old(Employees()), IdKey, internalId, employee))
      ensures visibleColumns == old(visibleColumns)
    {
      var employees := FetchEmployees();
      employeeData := Some(Api.MergeMatching(employees, IdKey, internalId, employee));
      result := Put(employee, IdKey, internalId);
    }

    /** `deleteEmployee`: drops the records with that `id`. */
    method DeleteEmployee(internalId: Option<Value>)
      modifies this
      ensures employeeData == Some(Api.RemoveMatching(old(Employees()), IdKey, internalId))
      ensures visibleColumns == old(visibleColumns)
    {
      var employees := FetchEmployees();
      employeeData := Some(Api.RemoveMatching(employees, IdKey, internalId));
    }
  }

  // ---------------------------------------------------------------- the page state

  /** The modal was opened on a record with a truthy `id`: saving updates it. */
  predicate Editing(currentRecord: Option<Record>)
  {
    currentRecord.Some? && Truthy(Get(currentRecord.value, IdKey))
  }

  class HomeView {
    const store: LocalStore
    const show: real -> string

    var allProfileFields: seq<FieldDef>
    var visibleColumnKeys: seq<string>
    var employeeData: seq<Record>
    var currentRecord: Option<Record>
    var searchTerm: string
    var nextEmployeeIdToUse: string
    var currentPage: int

    /** The page as first rendered, before `loadData` runs. */
    constructor(store: LocalStore, show: real -> string)
      ensures this.store == store && this.show == show
      ensures allProfileFields == [] && visibleColumnKeys == [] && employeeData == []
      ensures currentRecord.None? && searchTerm == "" && nextEmployeeIdToUse == "" && currentPage == 1
    {
      this.store := store;
      this.show := show;
      allProfileFields, visibleColumnKeys, employeeData := [], [], [];
      currentRecord, searchTerm, nextEmployeeIdToUse, currentPage := None, "", "", 1;
    }

    /** `loadData`: the schema, the saved or default columns, the employees and the next id. */
    method LoadData()
      modifies this
      ensures allProfileFields == store.schema
      ensures visibleColumnKeys == VisibleOnLoad(store.visibleColumns, store.schema)
      ensures employeeData == store.Employees()
      ensures nextEmployeeIdToUse == EmployeeUtils.NextEmployeeId(Some(employeeData))
      ensures currentRecord == old(currentRecord) && searchTerm == old(searchTerm) && currentPage == old(currentPage)
    {
      LoadColumns();
      LoadEmployees();
    }

    /** The first half of `loadData`: the schema and the saved or default visible keys. */
    method LoadColumns()
      modifies this
      ensures unchanged(this`employeeData, this`nextEmployeeIdToUse, this`currentRecord, this`searchTerm, this`currentPage)
      ensures allProfileFields == store.schema
      ensures visibleColumnKeys == VisibleOnLoad(store.visibleColumns, store.schema)
    {
      var schema := store.FetchEmployeeSchema();
      allProfileFields := schema;
      var savedVisibleKeys := store.visibleColumns;
      if savedVisibleKeys.Some? {
        visibleColumnKeys := savedVisibleKeys.value;
      } else {
        visibleColumnKeys := DefaultColumnKeys(schema);
      }
    }

    /** The second half of `loadData`: the employees and the next employee id. */
    method LoadEmployees()
      modifies this`employeeData, this`nextEmployeeIdToUse
      ensures employeeData == store.Employees()
      ensures nextEmployeeIdToUse == EmployeeUtils.NextEmployeeId(Some(employeeData))
    {
      var data := store.FetchEmployees();
      var nextId := EmployeeUtils.NextEmployeeId(Some(data));
      employeeData, nextEmployeeIdToUse := data, nextId;
    }

    /** The effect that saves the visible keys once both the schema and the keys are non-empty. */
    method SaveVisibleColumns()
      modifies store
      ensures |allProfileFields| > 0 && |visibleColumnKeys| > 0 ==> store.visibleColumns == Some(visibleColumnKeys)
      ensures !(|allProfileFields| > 0 && |visibleColumnKeys| > 0) ==> store.visibleColumns == old(store.visibleColumns)
      ensures store.employeeData == old(store.employeeData)
    {
      if |allProfileFields| > 0 && |visibleColumnKeys| > 0 {
        store.visibleColumns := Some(visibleColumnKeys);
      }
    }

    /** `handleColumnVisibilityChange`: removes the key if shown, else appends it. */
    method HandleColumnVisibilityChange(key: string)
      modifies this
      ensures visibleColumnKeys == ListView.Toggled(old(visibleColumnKeys), key)
      ensures employeeData == old(employeeData) && currentRecord == old(currentRecord)
      ensures allProfileFields == old(allProfileFields) && currentPage == old(currentPage)
    {
      visibleColumnKeys := ListView.Toggled(visibleColumnKeys, key);
    }

    /** `handleOpenRecordModal`: a new record (`None`) also recomputes the next id. */
    method HandleOpenRecordModal(record: Option<Record>)
      modifies this
      ensures currentRecord == record
      ensures record.None? ==> nextEmployeeIdToUse == EmployeeUtils.NextEmployeeId(Some(employeeData))
      ensures record.Some? ==> nextEmployeeIdToUse == old(nextEmployeeIdToUse)
      ensures employeeData == old(employeeData) && visibleColumnKeys == old(visibleColumnKeys)
    {
      currentRecord := record;
      if record.None? {
        nextEmployeeIdToUse := EmployeeUtils.NextEmployeeId(Some(employeeData));
      }
    }

    /**
     * `handleSaveEmployee`: an update when the current record has a truthy
     * `id`, an add otherwise; the page's list follows, the next id is
     * recomputed from it and the modal closes.
     */
    method HandleSaveEmployee(recordDataToSave: Record, freshId: string)
      modifies this, store
      ensures Editing(old(currentRecord)) ==>
        var id := Get(old(currentRecord).value, IdKey);
        && store.employeeData == Some(Api.MergeMatching(old(store.Employees()), IdKey, id, recordDataToSave))
        && employeeData == ReplaceMatching(old(employeeData), IdKey, id, Put(recordDataToSave, IdKey, id))
      ensures !Editing(old(currentRecord)) ==>
        && store.employeeData == Some(old(store.Employees()) + [Api.WithId(recordDataToSave, IdKey, freshId)])
        && employeeData == old(employeeData) + [Api.WithId(recordDataToSave, IdKey, freshId)]
      ensures nextEmployeeIdToUse == EmployeeUtils.NextEmployeeId(Some(employeeData))
      ensures currentRecord.None?
      ensures store.visibleColumns == old(store.visibleColumns)
      ensures visibleColumnKeys == old(visibleColumnKeys) && allProfileFields == old(allProfileFields)
    {
      if Editing(currentRecord) {
        SaveUpdated(Get(currentRecord.value, IdKey), recordDataToSave);
      } else {
        SaveAdded(recordDataToSave, freshId);
      }
    }

    /** The update branch of `handleSaveEmployee`. */
    method SaveUpdated(id: Option<Value>, recordDataToSave: Record)
      modifies this`employeeData, this`nextEmployeeIdToUse, this`currentRecord, store
      ensures store.employeeData == Some(Api.MergeMatching(old(store.Employees()), IdKey, id, recordDataToSave))
      ensures store.visibleColumns == old(store.visibleColumns)
      ensures employeeData == ReplaceMatching(old(employeeData), IdKey, id, Put(recordDataToSave, IdKey, id))
      ensures nextEmployeeIdToUse == EmployeeUtils.NextEmployeeId(Some(employeeData))
      ensures currentRecord.None?
    {
      var savedRecord := store.UpdateEmployee(id, recordDataToSave);
      currentRecord := None;
      ShowEmployees(ReplaceMatching(employeeData, IdKey, id, savedRecord));
    }

    /** The add branch of `handleSaveEmployee`. */
    method SaveAdded(recordDataToSave: Record, freshId: string)
      modifies this`employeeData, this`nextEmployeeIdToUse, this`currentRecord, store
      ensures store.employeeData == Some(old(store.Employees()) + [Api.WithId(recordDataToSave, IdKey, freshId)])
      ensures store.visibleColumns == old(store.visibleColumns)
      ensures employeeData == old(employeeData) + [Api.WithId(recordDataToSave, IdKey, freshId)]
      ensures nextEmployeeIdToUse == EmployeeUtils.NextEmployeeId(Some(employeeData))
      ensures currentRecord.None?
    {
      var savedRecord := store.AddEmployee(recordDataToSave, freshId);
      currentRecord := None;
      ShowEmployees(employeeData + [savedRecord]);
    }

    /** Sets the page's list and recomputes the next id from it. */
    method ShowEmployees(updatedEmployeeList: seq<Record>)
      modifies this`employeeData, this`nextEmployeeIdToUse
      ensures employeeData == updatedEmployeeList
      ensures nextEmployeeIdToUse == EmployeeUtils.NextEmployeeId(Some(updatedEmployeeList))
    {
      employeeData := updatedEmployeeList;
      nextEmployeeIdToUse := EmployeeUtils.NextEmployeeId(Some(updatedEmployeeList));
    }

    /**
     * `handleDeleteEmployee`: refused for an "Active" or "On Leave" employee;
     * otherwise carried out only when confirmed, from the store and the list.
     */
    method HandleDeleteEmployee(internalIdToDelete: Option<Value>, confirmed: bool) returns (refused: bool, deleted: bool)
      modifies this, store
      ensures refused <==> Guarded(old(employeeData), internalIdToDelete)
      ensures deleted <==> !refused && confirmed
      ensures deleted ==> employeeData == Api.RemoveMatching(old(employeeData), IdKey, internalIdToDelete)
      ensures deleted ==> store.employeeData == Some(Api.RemoveMatching(old(store.Employees()), IdKey, internalIdToDelete))
      ensures deleted ==> nextEmployeeIdToUse == EmployeeUtils.NextEmployeeId(Some(employeeData))
      ensures !deleted ==> employeeData == old(employeeData) && store.employeeData == old(store.employeeData)
      ensures !deleted ==> nextEmployeeIdToUse == old(nextEmployeeIdToUse)
      ensures store.visibleColumns == old(store.visibleColumns) && currentRecord == old(currentRecord)
    {
      var employeeToDelete := Api.FindRecord(employeeData, IdKey, internalIdToDelete);
      if employeeToDelete.Some? &&
        (Get(employeeToDelete.value, StatusKey) == Some(Str("Active")) ||
          Get(employeeToDelete.value, StatusKey) == Some(Str("On Leave")))
      {
        return true, false;
      }
      refused, deleted := false, false;
      if confirmed {
        store.DeleteEmployee(internalIdToDelete);
        ShowEmployees(Api.RemoveMatching(employeeData, IdKey, internalIdToDelete));
        deleted := true;
      }
    }

    /** The rows the search keeps. */
    function FilteredEmployeeData(): seq<Record>
      reads this
    {
      Filtered(employeeData, allProfileFields, searchTerm, show)
    }

    /** The effect on `currentPage` once the search has filtered the rows. */
    method ClampPage()
      modifies this
      ensures var rowCount := |FilteredEmployeeData()|;
        currentPage == ClampedPage(old(currentPage), ListView.TotalPages(rowCount), rowCount)
      ensures employeeData == old(employeeData) && searchTerm == old(searchTerm)
      ensures allProfileFields == old(allProfileFields)
    {
      var rowCount := |FilteredEmployeeData()|;
      var totalPages := ListView.TotalPages(rowCount);
      if currentPage > totalPages && totalPages > 0 {
        currentPage := totalPages;
      } else if currentPage == 0 && totalPages == 0 && rowCount == 0 {
        currentPage := 1;
      } else if currentPage == 0 && totalPages > 0 {
        currentPage := 1;
      } else if currentPage > totalPages && totalPages == 0 && rowCount == 0 {
        currentPage := 1;
      }
    }
  }
}
