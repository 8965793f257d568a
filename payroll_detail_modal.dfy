/**
 * src/modals/PayrollDetailModal.jsx: the classifier that splits a payroll
 * record's fields into earnings and deductions items for the detail view,
 * attaching a computed amount to the percentage it comes from. Currency,
 * percentage and date formatting are left to the host.
 */
module PayrollDetailModal {
  import opened JsValues
  import opened Schema

  datatype Category = Earnings | Deductions

  /** One displayed line; `Null` stands for JavaScript `null`. */
  datatype DisplayItem = DisplayItem(
    labelText: string,
    key: string,
    percentageValue: Value,
    amountValue: Value,
    isPercentageBased: bool,
    kind: FieldType)

  /** `key.toLowerCase().includes(word)`. */
  predicate KeyHas(key: string, word: string)
  {
    Contains(ToLower(key), word)
  }

  /** `findAmountFieldKey`: the computed amount of each of the three percentage inputs. */
  function AmountFieldKey(percentageFieldKey: string): (r: Option<string>)
    ensures percentageFieldKey == HouseRentPctKey ==> r == Some(HouseRentAmountKey)
    ensures percentageFieldKey == MedicalPctKey ==> r == Some(MedicalAmountKey)
    ensures percentageFieldKey == IncomeTaxPctKey ==> r == Some(IncomeTaxAmountKey)
    ensures r.None? <==> percentageFieldKey !in {HouseRentPctKey, MedicalPctKey, IncomeTaxPctKey}
  {
    if percentageFieldKey == HouseRentPctKey then Some(HouseRentAmountKey)
    else if percentageFieldKey == MedicalPctKey then Some(MedicalAmountKey)
    else if percentageFieldKey == IncomeTaxPctKey then Some(IncomeTaxAmountKey)
    else None
  }

  /** Distinct percentages have distinct amounts, none of them `basicSalary`. */
  lemma AmountFieldKeyInjective(a: string, b: string)
    ensures AmountFieldKey(a).Some? && AmountFieldKey(a) == AmountFieldKey(b) ==> a == b
    ensures AmountFieldKey(a) != Some(BasicSalaryKey)
  {
  }

  /** The fields the view never lists: hidden, system or not in the form, and the six bookkeeping keys. */
  predicate Excluded(f: FieldDef)
  {
    f.isHidden || f.isSystem || f.notInForm ||
    f.key in [InternalIdKey, EmployeeIdKey, EmployeeFullNameKey, GrossSalaryKey, TotalDeductionsKey, NetSalaryKey]
  }

  /** Absent, null, or a numeric 0 under a key that is not a percentage. */
  predicate Skipped(key: string, value: Option<Value>)
  {
    value.None? || value == Some(Null) || (value == Some(Num(0.0)) && !KeyHas(key, "percentage"))
  }

  /** An earnings percentage: a percentage key naming an allowance (or one of the two by name). */
  predicate EarningsPercentage(key: string)
  {
    KeyHas(key, "percentage") && (KeyHas(key, "allowance") || key == HouseRentPctKey || key == MedicalPctKey)
  }

  /**
   * An earnings amount: an allowance, or a calculated amount. As written the
   * calculated tax amount counts too; `excludeTax` is the corrected rule.
   */
  predicate EarningsAmount(f: FieldDef, excludeTax: bool)
  {
    (KeyHas(f.key, "allowance") || (f.isCalculated && KeyHas(f.key, "amount")))
      && !KeyHas(f.key, "percentage") && !(excludeTax && KeyHas(f.key, "tax"))
  }

  predicate DeductionsPercentage(key: string)
  {
    KeyHas(key, "percentage") && (KeyHas(key, "deduction") || KeyHas(key, "tax"))
  }

  predicate DeductionsAmount(f: FieldDef)
  {
    (KeyHas(f.key, "deduction") || (f.isCalculated && KeyHas(f.key, "tax"))) && !KeyHas(f.key, "percentage")
  }

  /** A percentage item, with its amount attached (and the amount key marked) when the record has it. */
  function PercentageItem(f: FieldDef, value: Value, payrollRecord: Record, processed: set<string>)
    : (r: (DisplayItem, set<string>))
    ensures r.0.isPercentageBased && r.0.key == f.key && r.0.percentageValue == value
    ensures match AmountFieldKey(f.key)
      case Some(ak) => if ak in payrollRecord then r.0.amountValue == payrollRecord[ak] && r.1 == processed + {ak}
        else r.0.amountValue == Null && r.1 == processed
      case None => r.0.amountValue == Null && r.1 == processed
  {
    var item := DisplayItem(f.labelText, f.key, value, Null, true, f.kind);
    match AmountFieldKey(f.key)
    case Some(ak) =>
      if ak in payrollRecord then (item.(amountValue := payrollRecord[ak]), processed + {ak}) else (item, processed)
    case None => (item, processed)
  }

  function AmountItem(f: FieldDef, value: Value): DisplayItem
  {
    DisplayItem(f.labelText, f.key, Null, value, false, f.kind)
  }

  /**
   * One pass of the `forEach`: the item field `f` adds to the category (if
   * any) and the amount keys processed so far.
   */
  function Step(category: Category, f: FieldDef, payrollRecord: Record, processed: set<string>, excludeTax: bool)
    : (Option<DisplayItem>, set<string>)
  {
    var value := Get(payrollRecord, f.key);
    if Excluded(f) || Skipped(f.key, value) then (None, processed)
    else
      var (item, processed') :=
        match category
        case Earnings =>
          if f.key == BasicSalaryKey then (Some(AmountItem(f, value.value)), processed)
          else if EarningsPercentage(f.key) then
            var (p, ks) := PercentageItem(f, value.value, payrollRecord, processed); (Some(p), ks)
          else if EarningsAmount(f, excludeTax) && f.key !in processed then (Some(AmountItem(f, value.value)), processed)
          else (None, processed)
        case Deductions =>
          if DeductionsPercentage(f.key) then
            var (p, ks) := PercentageItem(f, value.value, payrollRecord, processed); (Some(p), ks)
          else if DeductionsAmount(f) && f.key !in processed then (Some(AmountItem(f, value.value)), processed)
          else (None, processed)
      ;
      if item.Some? && (item.value.percentageValue != Null || item.value.amountValue != Null) then (item, processed')
      else (None, processed')
  }

  /** `getDisplayItems(category)` over the schema, with the processed amount keys it ends with. */
  function Items(payrollSchema: seq<FieldDef>, payrollRecord: Record, category: Category, excludeTax: bool)
    : (seq<DisplayItem>, set<string>)
  {
    if payrollSchema == [] then ([], {})
    else
      var n := |payrollSchema| - 1;
      var (items, processed) := Items(payrollSchema[..n], payrollRecord, category, excludeTax);
      var (item, processed') := Step(category, payrollSchema[n], payrollRecord, processed, excludeTax);
      if item.Some? then (items + [item.value], processed') else (items, processed')
  }

  /** The displayed items, with the corrected earnings rule. */
  function DisplayItems(payrollSchema: seq<FieldDef>, payrollRecord: Record, category: Category): seq<DisplayItem>
  {
    Items(payrollSchema, payrollRecord, category, true).0
  }

  /** The items the page shows as written, with the tax amount counted as an earning. */
  function DisplayItemsAsWritten(payrollSchema: seq<FieldDef>, payrollRecord: Record, category: Category)
    : seq<DisplayItem>
  {
    Items(payrollSchema, payrollRecord, category, false).0
  }

  // ---------------------------------------------------------------- what the items are

  /** Item `it` is what field `f` of the record yields: its label, key and type, the value in its slot. */
  predicate ItemOf(it: DisplayItem, f: FieldDef, payrollRecord: Record)
  {
    && it.key == f.key && it.labelText == f.labelText && it.kind == f.kind
    && !Excluded(f) && !Skipped(f.key, Get(payrollRecord, f.key))
    && (if it.isPercentageBased then Some(it.percentageValue) == Get(payrollRecord, f.key)
      else Some(it.amountValue) == Get(payrollRecord, f.key))
  }

  /** Every amount key attached to a percentage item has been marked as processed. */
  predicate Attached(items: seq<DisplayItem>, payrollRecord: Record, processed: set<string>)
  {
    forall i, ak ::
      (0 <= i < |items| && items[i].isPercentageBased && AmountFieldKey(items[i].key) == Some(ak) && ak in payrollRecord)
      ==> ak in processed
  }

  /** No amount item repeats an amount already attached to an earlier percentage item. */
  predicate NotRelisted(items: seq<DisplayItem>, payrollRecord: Record)
  {
    forall i, j, ak ::
      (0 <= i < j < |items| && items[i].isPercentageBased && AmountFieldKey(items[i].key) == Some(ak)
        && ak in payrollRecord && !items[j].isPercentageBased)
      ==> items[j].key != ak
  }

  /** Item `i` comes from field `at[i]`, the fields strictly increasing along the items. */
  predicate FromFields(items: seq<DisplayItem>, payrollSchema: seq<FieldDef>, payrollRecord: Record, at: seq<nat>)
  {
    && |at| == |items|
    && (forall i :: 0 <= i < |items| ==> at[i] < |payrollSchema| && ItemOf(items[i], payrollSchema[at[i]], payrollRecord))
    && (forall i, j :: 0 <= i < j < |items| ==> at[i] < at[j])
  }

  /**
   * The items follow the schema: at most one per field, each the item of a
   * listed field with a present value, in schema order.
   */
  lemma {:induction false} ItemsFromFields(payrollSchema: seq<FieldDef>, payrollRecord: Record, category: Category,
    excludeTax: bool)
    ensures var items := Items(payrollSchema, payrollRecord, category, excludeTax).0;
      |items| <= |payrollSchema| && exists at :: FromFields(items, payrollSchema, payrollRecord, at)
  {
    if payrollSchema != [] {
      var n := |payrollSchema| - 1;
      var (items, processed) := Items(payrollSchema[..n], payrollRecord, category, excludeTax);
      ItemsFromFields(payrollSchema[..n], payrollRecord, category, excludeTax);
      var at :| FromFields(items, payrollSchema[..n], payrollRecord, at);
      var f := payrollSchema[n];
      var step := Step(category, f, payrollRecord, processed, excludeTax);
      if step.0.Some? {
        StepItem(category, f, payrollRecord, processed, excludeTax);
        var items' := items + [step.0.value];
        var at' := at + [n];
        forall i | 0 <= i < |items'|
          ensures at'[i] < |payrollSchema| && ItemOf(items'[i], payrollSchema[at'[i]], payrollRecord)
        {
          if i < |items| {
            assert payrollSchema[..n][at[i]] == payrollSchema[at[i]];
          }
        }
        assert FromFields(items', payrollSchema, payrollRecord, at');
        assert Items(payrollSchema, payrollRecord, category, excludeTax).0 == items';
      } else {
        forall i | 0 <= i < |items|
          ensures at[i] < |payrollSchema| && ItemOf(items[i], payrollSchema[at[i]], payrollRecord)
        {
          assert payrollSchema[..n][at[i]] == payrollSchema[at[i]];
        }
        assert FromFields(items, payrollSchema, payrollRecord, at);
        assert Items(payrollSchema, payrollRecord, category, excludeTax).0 == items;
      }
    } else {
      assert FromFields([], payrollSchema, payrollRecord, []);
    }
  }

  /** An amount attached to a percentage item is never listed again by a later amount item. */
  lemma {:induction false} ItemsNotRelisted(payrollSchema: seq<FieldDef>, payrollRecord: Record, category: Category,
    excludeTax: bool)
    ensures var (items, processed) := Items(payrollSchema, payrollRecord, category, excludeTax);
      Attached(items, payrollRecord, processed) && NotRelisted(items, payrollRecord)
  {
    if payrollSchema != [] {
      var n := |payrollSchema| - 1;
      var (items, processed) := Items(payrollSchema[..n], payrollRecord, category, excludeTax);
      ItemsNotRelisted(payrollSchema[..n], payrollRecord, category, excludeTax);
      var f := payrollSchema[n];
      var step := Step(category, f, payrollRecord, processed, excludeTax);
      StepGrows(category, f, payrollRecord, processed, excludeTax);
      if step.0.Some? {
        StepItem(category, f, payrollRecord, processed, excludeTax);
        var items' := items + [step.0.value];
        forall i, j, ak | 0 <= i < j < |items'| && items'[i].isPercentageBased
            && AmountFieldKey(items'[i].key) == Some(ak) && ak in payrollRecord && !items'[j].isPercentageBased
          ensures items'[j].key != ak
        {
          if j == |items| {
            assert ak in processed;
            AmountFieldKeyInjective(items'[i].key, items'[i].key);
          }
        }
        assert NotRelisted(items', payrollRecord);
      }
    }
  }

  /** A pass only adds to the processed amount keys. */
  lemma StepGrows(category: Category, f: FieldDef, payrollRecord: Record, processed: set<string>, excludeTax: bool)
    ensures processed <= Step(category, f, payrollRecord, processed, excludeTax).1
  {
  }

  /** The item one pass adds: the field's own, with an unprocessed key when it is a plain amount. */
  lemma StepItem(category: Category, f: FieldDef, payrollRecord: Record, processed: set<string>, excludeTax: bool)
    requires Step(category, f, payrollRecord, processed, excludeTax).0.Some?
    ensures var (item, processed') := Step(category, f, payrollRecord, processed, excludeTax);
      && ItemOf(item.value, f, payrollRecord)
      && (!item.value.isPercentageBased ==> f.key == BasicSalaryKey || f.key !in processed)
      && (item.value.isPercentageBased ==> forall ak :: AmountFieldKey(f.key) == Some(ak) && ak in payrollRecord ==>
        ak in processed')
  {
  }

  /** With the corrected rule no earnings amount other than the basic salary is a tax field. */
  lemma {:induction false} CorrectedEarningsHoldNoTax(payrollSchema: seq<FieldDef>, payrollRecord: Record)
    ensures forall it ::
      (it in DisplayItems(payrollSchema, payrollRecord, Earnings) && !it.isPercentageBased && it.key != BasicSalaryKey)
      ==> !KeyHas(it.key, "tax")
  {
    if payrollSchema != [] {
      var n := |payrollSchema| - 1;
      CorrectedEarningsHoldNoTax(payrollSchema[..n], payrollRecord);
    }
  }

  /** A 0 under a percentage key is shown; a 0 under any other key is not. */
  lemma ZeroValues(category: Category, f: FieldDef, payrollRecord: Record, processed: set<string>, excludeTax: bool)
    requires Get(payrollRecord, f.key) == Some(Num(0.0))
    ensures !KeyHas(f.key, "percentage") ==> Step(category, f, payrollRecord, processed, excludeTax).0.None?
    ensures category == Earnings && EarningsPercentage(f.key) && !Excluded(f) ==>
      Step(category, f, payrollRecord, processed, excludeTax).0.Some?
    ensures category == Deductions && DeductionsPercentage(f.key) && !Excluded(f) ==>
      Step(category, f, payrollRecord, processed, excludeTax).0.Some?
  {
  }

  // ---------------------------------------------------------------- the tax amount listed as an earning

  lemma IncomeTaxAmountWords()
    ensures KeyHas(IncomeTaxAmountKey, "amount") && KeyHas(IncomeTaxAmountKey, "tax")
    ensures !KeyHas(IncomeTaxAmountKey, "allowance") && !KeyHas(IncomeTaxAmountKey, "percentage")
  {
    IncomeTaxAmountHasWords();
    IncomeTaxAmountLacksWords();
  }

  /** "incomeTaxAmount" lowered holds "amount" (from index 9) and "tax" (from index 6). */
  lemma IncomeTaxAmountHasWords()
    ensures KeyHas(IncomeTaxAmountKey, "amount") && KeyHas(IncomeTaxAmountKey, "tax")
  {
    ContainsAt(ToLower(IncomeTaxAmountKey), "amount", 9);
    ContainsAt(ToLower(IncomeTaxAmountKey), "tax", 6);
  }

  /** "incomeTaxAmount" has no "w" and no "g", so it holds neither "allowance" nor "percentage". */
  lemma IncomeTaxAmountLacksWords()
    ensures !KeyHas(IncomeTaxAmountKey, "allowance") && !KeyHas(IncomeTaxAmountKey, "percentage")
  {
    LowerAvoids(IncomeTaxAmountKey, 'w');
    MissingCharNotContained(ToLower(IncomeTaxAmountKey), "allowance", 'w');
    LowerAvoids(IncomeTaxAmountKey, 'g');
    MissingCharNotContained(ToLower(IncomeTaxAmountKey), "percentage", 'g');
  }

  /** The schema's income-tax amount field: calculated, listed, not one of the bookkeeping keys. */
  lemma IncomeTaxAmountField(f: FieldDef)
    requires f == PayrollAmountFields[3]
    ensures f.key == IncomeTaxAmountKey && f.isCalculated && !f.isHidden && !f.isSystem && !f.notInForm
  {
  }

  lemma IncomeTaxAmountNotExcluded(f: FieldDef)
    requires f.key == IncomeTaxAmountKey && !f.isHidden && !f.isSystem && !f.notInForm
    ensures !Excluded(f) && f.key != BasicSalaryKey
  {
  }

  /**
   * As written, a record's non-zero income-tax amount is listed among the
   * earnings (the schema marks the field calculated, and its key contains
   * "amount"); the corrected rule leaves it out.
   */
  lemma TaxAmountListedAsEarning(f: FieldDef, payrollRecord: Record, x: real)
    requires f == PayrollAmountFields[3]
    requires x != 0.0 && Get(payrollRecord, IncomeTaxAmountKey) == Some(Num(x))
    ensures DisplayItemsAsWritten([f], payrollRecord, Earnings) == [AmountItem(f, Num(x))]
    ensures DisplayItems([f], payrollRecord, Earnings) == []
  {
    IncomeTaxAmountField(f);
    IncomeTaxAmountWords();
    IncomeTaxAmountNotExcluded(f);
    CalculatedTaxAmountListed(f, payrollRecord, x);
  }

  /**
   * The same with the whole payroll schema of src/api.js: as written, a
   * non-zero income-tax amount is listed among the earnings.
   */
  lemma TaxAmountListedWithPayrollSchema(payrollRecord: Record, x: real)
    requires x != 0.0 && Get(payrollRecord, IncomeTaxAmountKey) == Some(Num(x))
    ensures AmountItem(PayrollAmountFields[3], Num(x)) in DisplayItemsAsWritten(PayrollSchema, payrollRecord, Earnings)
  {
    var f := PayrollAmountFields[3];
    assert PayrollSchema[14..] == PayrollAmountFields;
    var upTo := PayrollSchema[..18];
    var before := PayrollSchema[..17];
    assert upTo[..17] == before && upTo[17] == f;
    EarningsNeverProcessTax(before, payrollRecord, false);
    var (items, processed) := Items(before, payrollRecord, Earnings, false);
    TaxAmountStepListed(f, payrollRecord, x, processed);
    assert Items(upTo, payrollRecord, Earnings, false).0 == items + [AmountItem(f, Num(x))];
    ItemsPrefix(PayrollSchema, payrollRecord, Earnings, false, 18);
    assert DisplayItemsAsWritten(PayrollSchema, payrollRecord, Earnings)[|items|] == AmountItem(f, Num(x));
  }

  /** `incomeTaxPercentage` names no allowance, so it is not an earnings percentage. */
  lemma IncomeTaxPctNotEarnings()
    ensures !EarningsPercentage(IncomeTaxPctKey)
  {
    LowerAvoids(IncomeTaxPctKey, 'w');
    MissingCharNotContained(ToLower(IncomeTaxPctKey), "allowance", 'w');
  }

  /** The earnings pass never marks the income-tax amount as processed. */
  lemma {:induction false} EarningsNeverProcessTax(payrollSchema: seq<FieldDef>, payrollRecord: Record, excludeTax: bool)
    ensures IncomeTaxAmountKey !in Items(payrollSchema, payrollRecord, Earnings, excludeTax).1
  {
    IncomeTaxPctNotEarnings();
    if payrollSchema != [] {
      EarningsNeverProcessTax(payrollSchema[..|payrollSchema| - 1], payrollRecord, excludeTax);
    }
  }

  /** The items over a prefix of the schema begin the items over the whole schema. */
  lemma {:induction false} ItemsPrefix(payrollSchema: seq<FieldDef>, payrollRecord: Record, category: Category,
    excludeTax: bool, m: nat)
    requires m <= |payrollSchema|
    ensures Items(payrollSchema[..m], payrollRecord, category, excludeTax).0
      <= Items(payrollSchema, payrollRecord, category, excludeTax).0
  {
    if m < |payrollSchema| {
      var n := |payrollSchema| - 1;
      assert payrollSchema[..n][..m] == payrollSchema[..m];
      ItemsPrefix(payrollSchema[..n], payrollRecord, category, excludeTax, m);
    } else {
      assert payrollSchema[..m] == payrollSchema;
    }
  }

  /** As written, the earnings step lists an unprocessed non-zero income-tax amount. */
  lemma TaxAmountStepListed(f: FieldDef, payrollRecord: Record, x: real, processed: set<string>)
    requires f == PayrollAmountFields[3] && IncomeTaxAmountKey !in processed
    requires x != 0.0 && Get(payrollRecord, IncomeTaxAmountKey) == Some(Num(x))
    ensures Step(Earnings, f, payrollRecord, processed, false).0 == Some(AmountItem(f, Num(x)))
  {
    IncomeTaxAmountField(f);
    IncomeTaxAmountWords();
    IncomeTaxAmountNotExcluded(f);
    assert !EarningsPercentage(f.key);
    assert EarningsAmount(f, false);
    assert !Skipped(f.key, Get(payrollRecord, f.key));
  }

  /** Any calculated tax amount that is not an allowance or a percentage, on its own in the schema. */
  lemma CalculatedTaxAmountListed(f: FieldDef, payrollRecord: Record, x: real)
    requires f.isCalculated && !Excluded(f) && f.key != BasicSalaryKey
    requires KeyHas(f.key, "amount") && KeyHas(f.key, "tax")
    requires !KeyHas(f.key, "allowance") && !KeyHas(f.key, "percentage")
    requires x != 0.0 && Get(payrollRecord, f.key) == Some(Num(x))
    ensures DisplayItemsAsWritten([f], payrollRecord, Earnings) == [AmountItem(f, Num(x))]
    ensures DisplayItems([f], payrollRecord, Earnings) == []
  {
    assert [f][..0] == [];
    assert Items([], payrollRecord, Earnings, false) == ([], {}) == Items([], payrollRecord, Earnings, true);
    assert !EarningsPercentage(f.key);
    assert EarningsAmount(f, false) && !EarningsAmount(f, true);
    assert !Skipped(f.key, Get(payrollRecord, f.key));
    assert Step(Earnings, f, payrollRecord, {}, false) == (Some(AmountItem(f, Num(x))), {});
    assert Step(Earnings, f, payrollRecord, {}, true) == (None, {});
    assert [f][|[f]| - 1] == f;
    assert [] + [AmountItem(f, Num(x))] == [AmountItem(f, Num(x))];
  }

  // ---------------------------------------------------------------- the loop

  /**
   * `getDisplayItems(category)`: as written when `excludeTax` is false, with
   * the corrected earnings rule when it is true.
   */
  method GetDisplayItems(payrollSchema: seq<FieldDef>, payrollRecord: Record, category: Category, excludeTax: bool)
    returns (items: seq<DisplayItem>)
    ensures excludeTax ==> items == DisplayItems(payrollSchema, payrollRecord, category)
    ensures !excludeTax ==> items == DisplayItemsAsWritten(payrollSchema, payrollRecord, category)
  {
    items := [];
    var processedAmountKeys: set<string> := {};
    var i := 0;
    while i < |payrollSchema|
      invariant 0 <= i <= |payrollSchema|
      invariant (items, processedAmountKeys) == Items(payrollSchema[..i], payrollRecord, category, excludeTax)
    {
      var field := payrollSchema[i];
      assert payrollSchema[..i + 1][..i] == payrollSchema[..i];
      ghost var step := Step(category, field, payrollRecord, processedAmountKeys, excludeTax);
      var value := Get(payrollRecord, field.key);
      if !Excluded(field) && !Skipped(field.key, value) {
        var isRelevantField := false;
        var itemToAdd := DisplayItem(field.labelText, field.key, Null, Null, false, field.kind);
        ghost var processed := processedAmountKeys;
        if category == Earnings {
          if field.key == BasicSalaryKey {
            isRelevantField := true;
            itemToAdd := itemToAdd.(amountValue := value.value);
          } else if EarningsPercentage(field.key) {
            isRelevantField := true;
            itemToAdd := itemToAdd.(isPercentageBased := true, percentageValue := value.value);
            var amountKey := AmountFieldKey(field.key);
            if amountKey.Some? && amountKey.value in payrollRecord {
              itemToAdd := itemToAdd.(amountValue := payrollRecord[amountKey.value]);
              processedAmountKeys := processedAmountKeys + {amountKey.value};
            }
          } else if EarningsAmount(field, excludeTax) && field.key !in processedAmountKeys {
            isRelevantField := true;
            itemToAdd := itemToAdd.(amountValue := value.value);
          }
        } else {
          if DeductionsPercentage(field.key) {
            isRelevantField := true;
            itemToAdd := itemToAdd.(isPercentageBased := true, percentageValue := value.value);
            var amountKey := AmountFieldKey(field.key);
            if amountKey.Some? && amountKey.value in payrollRecord {
              itemToAdd := itemToAdd.(amountValue := payrollRecord[amountKey.value]);
              processedAmountKeys := processedAmountKeys + {amountKey.value};
            }
          } else if DeductionsAmount(field) && field.key !in processedAmountKeys {
            isRelevantField := true;
            itemToAdd := itemToAdd.(amountValue := value.value);
          }
        }
        assert processedAmountKeys == step.1;
        if isRelevantField && (itemToAdd.percentageValue != Null || itemToAdd.amountValue != Null) {
          assert step.0 == Some(itemToAdd);
          items := items + [itemToAdd];
        } else {
          assert step.0.None?;
        }
      }
      i := i + 1;
    }
    assert payrollSchema[..i] == payrollSchema;
  }
}
