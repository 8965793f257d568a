/**
 * src/pages/PayrollPage.jsx: the payroll list. Column toggling with the
 * always-visible columns put back in front, the join of each payroll row with
 * its employee's full name, the search filter, the displayed columns in
 * schema order with `employeeId` first, and the page clamp and slice. The
 * page's schema and column state are the fields of `PayrollView`; `alert` is
 * the `refused` result.
 */
module PayrollPage {
  import opened JsValues
  import opened Schema
  import Api
  import ListView

  // ---------------------------------------------------------------- always-visible columns

  /** Some field of `fields` with key `k` is flagged `alwaysVisibleInPayroll`. */
  predicate AlwaysVisibleKey(fields: seq<FieldDef>, k: string)
  {
    exists i :: 0 <= i < |fields| && fields[i].key == k && fields[i].alwaysVisibleInPayroll
  }

  lemma AlwaysVisibleKeySplit(fields: seq<FieldDef>, k: string)
    requires fields != []
    ensures var n := |fields| - 1;
      AlwaysVisibleKey(fields, k) <==>
        AlwaysVisibleKey(fields[..n], k) || (fields[n].key == k && fields[n].alwaysVisibleInPayroll)
  {
    var n := |fields| - 1;
    if AlwaysVisibleKey(fields, k) {
      var i :| 0 <= i < |fields| && fields[i].key == k && fields[i].alwaysVisibleInPayroll;
      if i < n {
        assert fields[..n][i] == fields[i];
      }
    }
    if AlwaysVisibleKey(fields[..n], k) {
      var i :| 0 <= i < n && fields[..n][i].key == k && fields[..n][i].alwaysVisibleInPayroll;
      assert fields[i] == fields[..n][i];
    }
  }

  /**
   * The `forEach` that `unshift`s each always-visible field missing from the
   * keys, in field order (so the last one missing ends up first).
   */
  function Pinned(keys: seq<string>, fields: seq<FieldDef>): seq<string>
  {
    if fields == [] then keys
    else
      var prev := Pinned(keys, fields[..|fields| - 1]);
      var f := fields[|fields| - 1];
      if f.alwaysVisibleInPayroll && f.key !in prev then [f.key] + prev else prev
  }

  /** Pinning adds exactly the missing always-visible keys, in front of the keys it was given. */
  lemma {:induction false} PinnedKeys(keys: seq<string>, fields: seq<FieldDef>)
    ensures var r := Pinned(keys, fields);
      && |keys| <= |r| && r[|r| - |keys|..] == keys
      && forall k :: k in r <==> k in keys || AlwaysVisibleKey(fields, k)
  {
    if fields != [] {
      var n := |fields| - 1;
      PinnedKeys(keys, fields[..n]);
      forall k
        ensures AlwaysVisibleKey(fields, k) <==>
          AlwaysVisibleKey(fields[..n], k) || (fields[n].key == k && fields[n].alwaysVisibleInPayroll)
      {
        AlwaysVisibleKeySplit(fields, k);
      }
    }
  }

  /** The toggle is refused for an always-visible column that is showing. */
  predicate Locked(fields: seq<FieldDef>, visible: seq<string>, key: string)
  {
    match FindField(fields, key)
    case Some(f) => f.alwaysVisibleInPayroll && key in visible
    case None => false
  }

  /** The visible keys after an accepted toggle. */
  function ToggledColumns(fields: seq<FieldDef>, visible: seq<string>, key: string): seq<string>
  {
    Dedup(Pinned(ListView.Toggled(visible, key), fields))
  }

  /**
   * After an accepted toggle the list has no duplicates, holds every
   * always-visible key, and otherwise flips the toggled key and keeps the rest.
   */
  lemma ToggledColumnsKeys(fields: seq<FieldDef>, visible: seq<string>, key: string)
    ensures var r := ToggledColumns(fields, visible, key);
      && NoDuplicates(r)
      && (forall k :: AlwaysVisibleKey(fields, k) ==> k in r)
      && (!AlwaysVisibleKey(fields, key) ==> (key in r <==> key !in visible))
      && forall k :: k != key ==> (k in r <==> k in visible || AlwaysVisibleKey(fields, k))
  {
    PinnedKeys(ListView.Toggled(visible, key), fields);
  }

  /** An always-visible column that is showing stays showing: the toggle is refused. */
  lemma LockedAlwaysVisible(fields: seq<FieldDef>, visible: seq<string>, key: string)
    requires FindField(fields, key).Some? && FindField(fields, key).value.alwaysVisibleInPayroll
    ensures key in visible ==> Locked(fields, visible, key)
    ensures key !in visible ==> key in ToggledColumns(fields, visible, key)
  {
    ToggledColumnsKeys(fields, visible, key);
  }

  // ---------------------------------------------------------------- the employee-name join

  /** `employee ? employee.fullName : "N/A"` for the first employee with the row's `employeeId`. */
  function FullNameFor(employees: seq<Record>, p: Record): Option<Value>
  {
    match Api.FindRecord(employees, EmployeeIdKey, Get(p, EmployeeIdKey))
    case Some(e) => Get(e, FullNameKey)
    case None => Some(Str("N/A"))
  }

  /** `enrichedPayrollData`: each row with `employeeFullName` added. */
  function Enriched(payrolls: seq<Record>, employees: seq<Record>): (rows: seq<Record>)
    ensures |rows| == |payrolls|
    ensures forall i :: 0 <= i < |rows| ==> Get(rows[i], EmployeeFullNameKey) == FullNameFor(employees, payrolls[i])
    ensures forall i, k :: 0 <= i < |rows| && k != EmployeeFullNameKey ==> Get(rows[i], k) == Get(payrolls[i], k)
  {
    seq(|payrolls|, i requires 0 <= i < |payrolls| => Put(payrolls[i], EmployeeFullNameKey, FullNameFor(employees, payrolls[i])))
  }

  /**
   * A row's name is the `fullName` of the first employee whose `employeeId`
   * is strictly equal to the row's, and "N/A" when there is none.
   */
  lemma EnrichedName(payrolls: seq<Record>, employees: seq<Record>, i: nat)
    requires i < |payrolls|
    ensures var id := Get(payrolls[i], EmployeeIdKey);
      var name := Get(Enriched(payrolls, employees)[i], EmployeeFullNameKey);
      && ((forall e :: e in employees ==> !Api.Matches(e, EmployeeIdKey, id)) ==> name == Some(Str("N/A")))
      && forall j ::
        (0 <= j < |employees| && Api.Matches(employees[j], EmployeeIdKey, id)
          && forall m :: 0 <= m < j ==> !Api.Matches(employees[m], EmployeeIdKey, id)) ==>
        name == Get(employees[j], FullNameKey)
  {
    var id := Get(payrolls[i], EmployeeIdKey);
    Api.FindRecordFirst(employees, EmployeeIdKey, id);
    forall j | 0 <= j < |employees| && Api.Matches(employees[j], EmployeeIdKey, id)
        && (forall m :: 0 <= m < j ==> !Api.Matches(employees[m], EmployeeIdKey, id))
      ensures Api.FindRecord(employees, EmployeeIdKey, id) == Some(employees[j])
    {
      var f := Api.FindFirst(employees, EmployeeIdKey, id);
      assert f.Some?;
      assert f.value == j;
    }
  }

  // ---------------------------------------------------------------- search

  /**
   * `allPayrollFields.some(...)`: some field's value, or the row's employee
   * name, contains the lower-cased term. The name is only looked at inside
   * that loop, so with no fields nothing matches.
   */
  predicate RowMatches(item: Record, fields: seq<FieldDef>, lowerSearchTerm: string, show: real -> string)
  {
    exists i :: 0 <= i < |fields| &&
      (ListView.ValueMatches(Get(item, fields[i].key), lowerSearchTerm, show)
        || ListView.ValueMatches(Get(item, EmployeeFullNameKey), lowerSearchTerm, show))
  }

  function Matcher(fields: seq<FieldDef>, lowerSearchTerm: string, show: real -> string): Record -> bool
  {
    item => RowMatches(item, fields, lowerSearchTerm, show)
  }

  /** `filteredPayrollData`: every row for an empty term, else the rows that match. */
  function Filtered(rows: seq<Record>, fields: seq<FieldDef>, searchTerm: string, show: real -> string): seq<Record>
  {
    if searchTerm == "" then rows else ListView.FilterRows(rows, Matcher(fields, ToLower(searchTerm), show))
  }

  /** The search keeps exactly the matching rows, in order; an empty term keeps all. */
  lemma FilteredRows(rows: seq<Record>, fields: seq<FieldDef>, searchTerm: string, show: real -> string)
    ensures |Filtered(rows, fields, searchTerm, show)| <= |rows|
    ensures searchTerm == "" ==> Filtered(rows, fields, searchTerm, show) == rows
    ensures searchTerm != "" ==> forall x :: x in Filtered(rows, fields, searchTerm, show) <==>
      x in rows && RowMatches(x, fields, ToLower(searchTerm), show)
  {
  }

  /** A row whose employee name contains the term is found, as long as the schema has a field. */
  lemma NameMatchFound(item: Record, fields: seq<FieldDef>, lowerSearchTerm: string, show: real -> string)
    requires ListView.ValueMatches(Get(item, EmployeeFullNameKey), lowerSearchTerm, show)
    ensures RowMatches(item, fields, lowerSearchTerm, show) <==> fields != []
  {
    if fields != [] {
      assert ListView.ValueMatches(Get(item, fields[0].key), lowerSearchTerm, show)
        || ListView.ValueMatches(Get(item, EmployeeFullNameKey), lowerSearchTerm, show);
    }
  }

  // ---------------------------------------------------------------- displayed columns

  /** `allPayrollFields.filter((field) => !field.isHidden)`. */
  function NotHidden(fields: seq<FieldDef>): (r: seq<FieldDef>)
    ensures |r| <= |fields|
    ensures forall f :: f in r <==> f in fields && !f.isHidden
  {
    if fields == [] then []
    else
      var prev := NotHidden(fields[..|fields| - 1]);
      var f := fields[|fields| - 1];
      assert forall g :: g in fields <==> g in fields[..|fields| - 1] || g == f;
      if !f.isHidden then prev + [f] else prev
  }

  /** `allPayrollFields.findIndex((f) => f.key === k)` for a key the schema has. */
  function SchemaIndex(fields: seq<FieldDef>, k: string): nat
  {
    if k in Keys(fields) then FirstIndex(Keys(fields), k) else |fields|
  }

  /** The sort's comparator: `employeeId` first, then schema order. */
  predicate Before(fields: seq<FieldDef>, a: FieldDef, b: FieldDef)
  {
    a.key == EmployeeIdKey || (b.key != EmployeeIdKey && SchemaIndex(fields, a.key) < SchemaIndex(fields, b.key))
  }

  /** A key the displayed columns show: asked for or always visible, and held by a non-hidden field. */
  predicate Shown(fields: seq<FieldDef>, visible: seq<string>, k: string)
  {
    var potential := NotHidden(fields);
    (k in visible || AlwaysVisibleKey(potential, k)) && FindField(potential, k).Some?
  }

  /** A key first appears in the schema before position `i` exactly when it is among the first `i` keys. */
  lemma SchemaIndexBelow(fields: seq<FieldDef>, k: string, i: nat)
    requires i <= |fields|
    ensures k in Keys(fields)[..i] <==> k in Keys(fields) && SchemaIndex(fields, k) < i
  {
    var ks := Keys(fields);
    if k in ks[..i] {
      var j :| 0 <= j < i && ks[..i][j] == k;
      assert ks[j] == k;
    }
    if k in ks && SchemaIndex(fields, k) < i {
      var idx := FirstIndex(ks, k);
      assert ks[..i][idx] == k;
    }
  }

  /** The keys after the `unshift` loop and the `Set`: the visible ones and the always-visible non-hidden ones. */
  method DisplayKeys(allFields: seq<FieldDef>, visible: seq<string>) returns (displayKeys: seq<string>)
    ensures NoDuplicates(displayKeys)
    ensures forall k :: k in displayKeys <==> k in visible || AlwaysVisibleKey(NotHidden(allFields), k)
  {
    var potential := NotHidden(allFields);
    displayKeys := visible;
    var j := 0;
    while j < |potential|
      invariant 0 <= j <= |potential|
      invariant displayKeys == Pinned(visible, potential[..j])
    {
      var field := potential[j];
      if field.alwaysVisibleInPayroll && field.key !in displayKeys {
        displayKeys := [field.key] + displayKeys;
      }
      assert potential[..j + 1][..j] == potential[..j];
      j := j + 1;
    }
    assert potential[..j] == potential;
    PinnedKeys(visible, potential);
    displayKeys := Dedup(displayKeys);
  }

  /**
   * The first `i` schema positions have been walked: `columns` holds, in
   * comparator order and once each, the first non-hidden field of every
   * display key that is `employeeId` or first appears before position `i`.
   */
  ghost predicate Walked(allFields: seq<FieldDef>, potential: seq<FieldDef>, displayKeys: seq<string>,
    columns: seq<FieldDef>, i: nat)
    requires i <= |allFields|
  {
    && (forall m :: 0 <= m < |columns| ==> FindField(potential, columns[m].key) == Some(columns[m]))
    && (forall k :: k in Keys(columns) <==>
      k in displayKeys && FindField(potential, k).Some? && (k == EmployeeIdKey || k in Keys(allFields)[..i]))
    && NoDuplicates(Keys(columns))
    && (forall m, n :: 0 <= m < n < |columns| ==> Before(allFields, columns[m], columns[n]))
    && (forall m :: 0 <= m < |columns| && columns[m].key != EmployeeIdKey ==> SchemaIndex(allFields, columns[m].key) < i)
  }

  /**
   * `columnsToDisplayForPayroll`: the visible keys with the missing
   * always-visible non-hidden ones put in front, de-duplicated, each mapped to
   * its first non-hidden field (unknown keys dropped), and sorted with
   * `employeeId` first and the rest in schema order. The comparator is a
   * strict order on distinct keys, so the sort's result is the one list in
   * that order; it is built here by walking the schema.
   */
  method ColumnsToDisplay(allFields: seq<FieldDef>, visible: seq<string>) returns (columns: seq<FieldDef>)
    ensures forall i :: 0 <= i < |columns| ==> FindField(NotHidden(allFields), columns[i].key) == Some(columns[i])
    ensures forall k :: k in Keys(columns) <==> Shown(allFields, visible, k)
    ensures NoDuplicates(Keys(columns))
    ensures forall i, j :: 0 <= i < j < |columns| ==> Before(allFields, columns[i], columns[j])
  {
    var potential := NotHidden(allFields);
    var displayKeys := DisplayKeys(allFields, visible);
    columns := [];
    var head := FindField(potential, EmployeeIdKey);
    if EmployeeIdKey in displayKeys && head.Some? {
      columns := [head.value];
    }
    WalkStart(allFields, potential, displayKeys, columns);
    var schemaKeys := Keys(allFields);
    var i := 0;
    while i < |allFields|
      invariant 0 <= i <= |allFields|
      invariant Walked(allFields, potential, displayKeys, columns, i)
    {
      var k := allFields[i].key;
      var found := FindField(potential, k);
      if k != EmployeeIdKey && k !in schemaKeys[..i] && k in displayKeys && found.Some? {
        WalkAppend(allFields, potential, displayKeys, columns, found.value, i);
        columns := columns + [found.value];
      } else {
        WalkSkip(allFields, potential, displayKeys, columns, i);
      }
      i := i + 1;
    }
    WalkEnd(allFields, visible, potential, displayKeys, columns);
  }

  /** Before the walk: at most the `employeeId` column. */
  lemma WalkStart(allFields: seq<FieldDef>, potential: seq<FieldDef>, displayKeys: seq<string>, columns: seq<FieldDef>)
    requires var head := FindField(potential, EmployeeIdKey);
      columns == if EmployeeIdKey in displayKeys && head.Some? then [head.value] else []
    ensures Walked(allFields, potential, displayKeys, columns, 0)
  {
    assert Keys(allFields)[..0] == [];
    if columns != [] {
      assert Keys(columns) == [EmployeeIdKey];
    }
  }

  /** A schema position whose key is `employeeId`, seen before, or not displayed adds nothing. */
  lemma WalkSkip(allFields: seq<FieldDef>, potential: seq<FieldDef>, displayKeys: seq<string>,
    columns: seq<FieldDef>, i: nat)
    requires i < |allFields| && Walked(allFields, potential, displayKeys, columns, i)
    requires var k := allFields[i].key;
      k == EmployeeIdKey || k in Keys(allFields)[..i] || k !in displayKeys || FindField(potential, k).None?
    ensures Walked(allFields, potential, displayKeys, columns, i + 1)
  {
    var ks := Keys(allFields);
    assert ks[..i + 1] == ks[..i] + [ks[i]];
    forall j
      ensures j in ks[..i + 1] <==> j in ks[..i] || j == ks[i]
    {
    }
  }

  /** The walk appends the first non-hidden field of a display key first seen at position `i`. */
  lemma WalkAppend(allFields: seq<FieldDef>, potential: seq<FieldDef>, displayKeys: seq<string>,
    columns: seq<FieldDef>, f: FieldDef, i: nat)
    requires i < |allFields| && Walked(allFields, potential, displayKeys, columns, i)
    requires allFields[i].key != EmployeeIdKey && allFields[i].key !in Keys(allFields)[..i]
    requires allFields[i].key in displayKeys && FindField(potential, allFields[i].key) == Some(f)
    ensures Walked(allFields, potential, displayKeys, columns + [f], i + 1)
  {
    AppendColumn(allFields, columns, f, i);
    AppendFound(potential, columns, f);
    AppendKeys(Keys(allFields), potential, displayKeys, columns, f, i, EmployeeIdKey);
    AppendIndex(allFields, columns, f, i);
  }

  /** Appending a field that `FindField` returns keeps every column what `FindField` returns. */
  lemma AppendFound(potential: seq<FieldDef>, columns: seq<FieldDef>, f: FieldDef)
    requires forall m :: 0 <= m < |columns| ==> FindField(potential, columns[m].key) == Some(columns[m])
    requires FindField(potential, f.key) == Some(f)
    ensures forall m :: 0 <= m < |columns + [f]| ==> FindField(potential, (columns + [f])[m].key) == Some((columns + [f])[m])
  {
    var next := columns + [f];
    forall m | 0 <= m < |next|
      ensures FindField(potential, next[m].key) == Some(next[m])
    {
      if m < |columns| {
        assert next[m] == columns[m];
      }
    }
  }

  /** Appending the field of schema key `i` extends the walked prefix of keys by that key. */
  lemma AppendKeys(ks: seq<string>, potential: seq<FieldDef>, displayKeys: seq<string>,
    columns: seq<FieldDef>, f: FieldDef, i: nat, pinned: string)
    requires i < |ks| && f.key == ks[i]
    requires ks[i] in displayKeys && FindField(potential, ks[i]).Some?
    requires Keys(columns + [f]) == Keys(columns) + [f.key]
    requires forall k :: k in Keys(columns) <==>
      k in displayKeys && FindField(potential, k).Some? && (k == pinned || k in ks[..i])
    ensures forall k :: k in Keys(columns + [f]) <==>
      k in displayKeys && FindField(potential, k).Some? && (k == pinned || k in ks[..i + 1])
  {
    assert ks[..i + 1] == ks[..i] + [ks[i]];
    forall k
      ensures k in Keys(columns + [f]) <==>
        k in displayKeys && FindField(potential, k).Some? && (k == pinned || k in ks[..i + 1])
    {
      assert k in ks[..i + 1] <==> k in ks[..i] || k == ks[i];
      assert k in Keys(columns + [f]) <==> k in Keys(columns) || k == f.key;
    }
  }

  /** Appending the field of schema key `i` keeps every column's schema position within the walked prefix. */
  lemma AppendIndex(allFields: seq<FieldDef>, columns: seq<FieldDef>, f: FieldDef, i: nat)
    requires SchemaIndex(allFields, f.key) == i
    requires forall m :: 0 <= m < |columns| && columns[m].key != EmployeeIdKey ==> SchemaIndex(allFields, columns[m].key) < i
    ensures forall m :: 0 <= m < |columns + [f]| && (columns + [f])[m].key != EmployeeIdKey ==>
      SchemaIndex(allFields, (columns + [f])[m].key) < i + 1
  {
    var next := columns + [f];
    forall m | 0 <= m < |next| && next[m].key != EmployeeIdKey
      ensures SchemaIndex(allFields, next[m].key) < i + 1
    {
      if m < |columns| {
        assert next[m] == columns[m];
      }
    }
  }

  /** After the walk the columns are exactly the shown keys'. */
  lemma WalkEnd(allFields: seq<FieldDef>, visible: seq<string>, potential: seq<FieldDef>, displayKeys: seq<string>,
    columns: seq<FieldDef>)
    requires potential == NotHidden(allFields)
    requires forall k :: k in displayKeys <==> k in visible || AlwaysVisibleKey(potential, k)
    requires forall k :: k in Keys(columns) <==>
      k in displayKeys && FindField(potential, k).Some? && (k == EmployeeIdKey || k in Keys(allFields)[..|allFields|])
    ensures forall k :: k in Keys(columns) <==> Shown(allFields, visible, k)
  {
    var ks := Keys(allFields);
    assert ks[..|allFields|] == ks;
    ShownKeys(allFields, visible, displayKeys);
    forall k | k == EmployeeIdKey && FindField(potential, k).Some?
      ensures k in ks
    {
      var f := FindField(potential, k).value;
      var m :| 0 <= m < |allFields| && allFields[m] == f;
      assert ks[m] == k;
    }
  }

  /** A shown key is a schema key the `Set` of display keys holds, with a non-hidden field. */
  lemma ShownKeys(allFields: seq<FieldDef>, visible: seq<string>, displayKeys: seq<string>)
    requires forall k :: k in displayKeys <==> k in visible || AlwaysVisibleKey(NotHidden(allFields), k)
    ensures forall k :: Shown(allFields, visible, k) <==>
      k in displayKeys && FindField(NotHidden(allFields), k).Some? && k in Keys(allFields)
  {
    forall k | Shown(allFields, visible, k)
      ensures k in Keys(allFields)
    {
      var f := FindField(NotHidden(allFields), k).value;
      assert f in allFields;
      var m :| 0 <= m < |allFields| && allFields[m] == f;
      assert Keys(allFields)[m] == k;
    }
  }

  /** The step of `ColumnsToDisplay` that appends the column first seen at schema position `i`. */
  lemma AppendColumn(allFields: seq<FieldDef>, columns: seq<FieldDef>, f: FieldDef, i: nat)
    requires i < |allFields| && f.key == allFields[i].key && f.key != EmployeeIdKey
    requires f.key !in Keys(allFields)[..i]
    requires forall m :: 0 <= m < |columns| && columns[m].key != EmployeeIdKey ==> SchemaIndex(allFields, columns[m].key) < i
    requires forall k :: k in Keys(columns) ==> k == EmployeeIdKey || k in Keys(allFields)[..i]
    requires NoDuplicates(Keys(columns))
    requires forall m, n :: 0 <= m < n < |columns| ==> Before(allFields, columns[m], columns[n])
    ensures SchemaIndex(allFields, f.key) == i
    ensures NoDuplicates(Keys(columns + [f]))
    ensures forall m, n :: 0 <= m < n < |columns + [f]| ==> Before(allFields, (columns + [f])[m], (columns + [f])[n])
    ensures Keys(columns + [f]) == Keys(columns) + [f.key]
  {
    var ks := Keys(allFields);
    assert ks[i] == f.key;
    SchemaIndexBelow(allFields, f.key, i);
    SchemaIndexBelow(allFields, f.key, i + 1);
    assert ks[..i + 1][i] == f.key;
    assert Keys(columns + [f]) == Keys(columns) + [f.key];
    assert f.key !in Keys(columns);
  }

  // ---------------------------------------------------------------- the page

  /** The effect that keeps the current page in range. */
  function ClampedPage(currentPage: int, totalPages: nat, rowCount: nat): int
  {
    if currentPage > totalPages && totalPages > 0 then totalPages
    else if currentPage < 1 && totalPages > 0 then 1
    else if totalPages == 0 && rowCount == 0 then 1
    else currentPage
  }

  /**
   * The clamped page is a real page: between 1 and the page count when there
   * are rows, 1 when there are none; a page already in range is kept; and
   * clamping again changes nothing.
   */
  lemma ClampedPageInRange(currentPage: int, rowCount: nat)
    ensures var total := ListView.TotalPages(rowCount);
      var p := ClampedPage(currentPage, total, rowCount);
      && (rowCount > 0 ==> 1 <= p <= total)
      && (rowCount == 0 ==> p == 1)
      && (1 <= currentPage <= total ==> p == currentPage)
      && ClampedPage(p, total, rowCount) == p
  {
  }

  class PayrollView {
    const allPayrollFields: seq<FieldDef>
    var visiblePayrollColumnKeys: seq<string>
    var currentPage: int

    constructor(allPayrollFields: seq<FieldDef>, visiblePayrollColumnKeys: seq<string>)
      ensures this.allPayrollFields == allPayrollFields
      ensures this.visiblePayrollColumnKeys == visiblePayrollColumnKeys && currentPage == 1
    {
      this.allPayrollFields := allPayrollFields;
      this.visiblePayrollColumnKeys := visiblePayrollColumnKeys;
      currentPage := 1;
    }

    /** `handleColumnVisibilityChange`. */
    method HandleColumnVisibilityChange(keyToToggle: string) returns (refused: bool)
      modifies this
      ensures refused <==> Locked(allPayrollFields, old(visiblePayrollColumnKeys), keyToToggle)
      ensures refused ==> visiblePayrollColumnKeys == old(visiblePayrollColumnKeys)
      ensures !refused ==>
        visiblePayrollColumnKeys == ToggledColumns(allPayrollFields, old(visiblePayrollColumnKeys), keyToToggle)
      ensures currentPage == old(currentPage)
    {
      var fieldSchema := FindField(allPayrollFields, keyToToggle);
      if fieldSchema.Some? && fieldSchema.value.alwaysVisibleInPayroll && keyToToggle in visiblePayrollColumnKeys {
        return true;
      }
      var newKeys := ListView.Toggled(visiblePayrollColumnKeys, keyToToggle);
      ghost var toggled := newKeys;
      var i := 0;
      while i < |allPayrollFields|
        invariant 0 <= i <= |allPayrollFields|
        invariant newKeys == Pinned(toggled, allPayrollFields[..i])
      {
        var field := allPayrollFields[i];
        if field.alwaysVisibleInPayroll && field.key !in newKeys {
          newKeys := [field.key] + newKeys;
        }
        assert allPayrollFields[..i + 1][..i] == allPayrollFields[..i];
        i := i + 1;
      }
      assert allPayrollFields[..i] == allPayrollFields;
      visiblePayrollColumnKeys := Dedup(newKeys);
      refused := false;
    }

    /** The effect on `currentPage` once the filtered list has `rowCount` rows. */
    method ClampPage(rowCount: nat)
      modifies this
      ensures currentPage == ClampedPage(old(currentPage), ListView.TotalPages(rowCount), rowCount)
      ensures visiblePayrollColumnKeys == old(visiblePayrollColumnKeys)
    {
      var totalPages := ListView.TotalPages(rowCount);
      if currentPage > totalPages && totalPages > 0 {
        currentPage := totalPages;
      } else if currentPage < 1 && totalPages > 0 {
        currentPage := 1;
      } else if totalPages == 0 && rowCount == 0 {
        currentPage := 1;
      }
    }
  }
}
