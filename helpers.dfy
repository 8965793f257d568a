/**
 * src/utils/helpers.jsx: the sequential employee id generator and the
 * payroll metrics calculator.
 */
module Helpers {
  import opened JsValues
  import opened Schema

  // ------------------------------------------------------ employee ids

  /** The number an id contributes: a string starting with `E` whose remainder `parseInt`s. */
  function IdNumber(id: Option<Value>): Option<int>
  {
    match id
    case Some(Str(s)) => if |s| > 0 && s[0] == 'E' then ParseInt(s[1..]) else None
    case _ => None
  }

  /**
   * `employees.map(e => e.employeeId)`, kept when a string starting with
   * `E`, mapped through `parseInt(id.substring(1), 10)`, NaN dropped.
   */
  function IdNumbers(employees: seq<Record>): seq<int>
  {
    if employees == [] then []
    else
      var head := match IdNumber(Get(employees[0], EmployeeIdKey)) case Some(n) => [n] case None => [];
      head + IdNumbers(employees[1..])
  }

  /** A number is collected exactly when some employee's id contributes it. */
  lemma {:induction false} IdNumbersIff(employees: seq<Record>)
    ensures forall n :: n in IdNumbers(employees) <==>
      exists e :: e in employees && IdNumber(Get(e, EmployeeIdKey)) == Some(n)
  {
    if employees != [] {
      IdNumbersIff(employees[1..]);
      assert forall e :: e in employees <==> e == employees[0] || e in employees[1..];
    }
  }

  /** `Math.max(...ns)` of a non-empty list. */
  function Max(ns: seq<int>): (m: int)
    requires ns != []
    ensures m in ns && forall n :: n in ns ==> n <= m
  {
    if |ns| == 1 then ns[0]
    else
      var rest := Max(ns[1..]);
      assert forall n :: n in ns ==> n == ns[0] || n in ns[1..];
      if ns[0] > rest then ns[0] else rest
  }

  /** `ns.length > 0 ? Math.max(...ns) : 0`. */
  function MaxOrZero(ns: seq<int>): int
  {
    if ns == [] then 0 else Max(ns)
  }

  function DigitChar(d: nat): char
    requires d < 10
  {
    ('0' as int + d) as char
  }

  /** The decimal text of a natural number, without leading zeros. */
  function NatToString(n: nat): (s: string)
    ensures 1 <= |s| && AllDigits(s) && DigitsValue(s) == n
    ensures |s| == 1 <==> n < 10
  {
    if n < 10 then [DigitChar(n)]
    else
      var p := NatToString(n / 10);
      var s := p + [DigitChar(n % 10)];
      assert s[..|s| - 1] == p;
      s
  }

  /** `String(n)` for an integer. */
  function IntToString(n: int): string
  {
    if n < 0 then "-" + NatToString(-n) else NatToString(n)
  }

  /** `s.padStart(width, fill)`: never truncates. */
  function PadStart(s: string, width: nat, fill: char): (r: string)
    ensures |r| == if |s| >= width then |s| else width
    ensures r[|r| - |s|..] == s
    ensures forall i :: 0 <= i < |r| - |s| ==> r[i] == fill
  {
    if |s| >= width then s else seq(width - |s|, _ => fill) + s
  }

  /** "E" followed by `n` padded with zeros to at least three characters. */
  function FormatEmployeeId(n: int): string
  {
    "E" + PadStart(IntToString(n), 3, '0')
  }

  /** `generateNextEmployeeId(existingEmployees)`. */
  function NextEmployeeId(employees: seq<Record>): string
  {
    FormatEmployeeId(MaxOrZero(IdNumbers(employees)) + 1)
  }

  /** Leading zeros do not change the value of a digit string. */
  lemma {:induction false} LeadingZeros(z: string, d: string)
    requires forall i :: 0 <= i < |z| ==> z[i] == '0'
    requires AllDigits(d)
    ensures AllDigits(z + d) && DigitsValue(z + d) == DigitsValue(d)
  {
    if d == [] {
      assert z + d == z;
      if z != [] {
        LeadingZeros(z[..|z| - 1], []);
        assert z[..|z| - 1] + [] == z[..|z| - 1];
      }
    } else {
      LeadingZeros(z, d[..|d| - 1]);
      assert (z + d)[..|z + d| - 1] == z + d[..|d| - 1];
    }
  }

  /** `parseInt` of a plain digit string is the number it denotes. */
  lemma ParseIntDigits(d: string)
    requires 1 <= |d| && AllDigits(d)
    ensures ParseInt(d) == Some(DigitsValue(d))
  {
    assert TrimStart(d) == d;
    assert SplitSign(d) == (false, d);
    assert DigitRun(d) == |d|;
    assert d[..|d|] == d;
  }

  /** `parseInt` of a minus sign followed by digits is the negated number. */
  lemma ParseIntNegative(t: string)
    requires 2 <= |t| && t[0] == '-' && AllDigits(t[1..])
    ensures ParseInt(t) == Some(-(DigitsValue(t[1..]) as int))
  {
    assert !IsSpace(t[0]);
    assert TrimStart(t) == t;
    assert SplitSign(t) == (true, t[1..]);
    assert DigitRun(t[1..]) == |t[1..]|;
    assert t[1..][..|t[1..]|] == t[1..];
  }

  /**
   * Parsing the digits of a formatted id gives the number back, except
   * that a one-digit negative number is padded into "0-d", which parses as 0.
   */
  lemma ParseFormatted(k: int)
    ensures ParseInt(PadStart(IntToString(k), 3, '0')) == Some(if -10 < k < 0 then 0 else k)
  {
    var s := IntToString(k);
    var p := PadStart(s, 3, '0');
    if k >= 0 {
      var z := p[..|p| - |s|];
      assert p == z + s;
      LeadingZeros(z, s);
      ParseIntDigits(p);
    } else if k <= -10 {
      assert p == s && s[1..] == NatToString(-k);
      ParseIntNegative(p);
    } else {
      var d := NatToString(-k);
      assert p == ['0', '-', d[0]];
      assert TrimStart(p) == p;
      assert SplitSign(p) == (false, p);
      assert DigitRun(p[1..]) == 0;
      assert p[..1] == "0";
    }
  }

  /** The number a formatted id contributes. */
  lemma FormatEmployeeIdNumber(k: int)
    ensures IdNumber(Some(Str(FormatEmployeeId(k)))) == Some(if -10 < k < 0 then 0 else k)
  {
    var id := FormatEmployeeId(k);
    assert id[0] == 'E' && id[1..] == PadStart(IntToString(k), 3, '0');
    ParseFormatted(k);
  }

  /**
   * The number in the generated id is strictly greater than every number
   * an existing id contributes.
   */
  lemma NextIdNumberExceedsAll(employees: seq<Record>)
    ensures var next := NextEmployeeId(employees);
      IdNumber(Some(Str(next))).Some? &&
      forall n :: n in IdNumbers(employees) ==> n < IdNumber(Some(Str(next))).value
  {
    var k := MaxOrZero(IdNumbers(employees)) + 1;
    FormatEmployeeIdNumber(k);
  }

  /** The generated id equals no existing employee id. */
  lemma NextEmployeeIdIsFresh(employees: seq<Record>)
    ensures forall e :: e in employees ==> Get(e, EmployeeIdKey) != Some(Str(NextEmployeeId(employees)))
  {
    NextIdNumberExceedsAll(employees);
    AboveAllIsFresh(employees, NextEmployeeId(employees));
  }

  /** An id whose number exceeds every number the existing ids contribute is none of them. */
  lemma AboveAllIsFresh(employees: seq<Record>, next: string)
    requires IdNumber(Some(Str(next))).Some?
    requires forall n :: n in IdNumbers(employees) ==> n < IdNumber(Some(Str(next))).value
    ensures forall e :: e in employees ==> Get(e, EmployeeIdKey) != Some(Str(next))
  {
    var p := IdNumber(Some(Str(next))).value;
    IdNumbersIff(employees);
    forall e | e in employees
      ensures Get(e, EmployeeIdKey) != Some(Str(next))
    {
      var v := IdNumber(Get(e, EmployeeIdKey));
      if v.Some? {
        assert v.value in IdNumbers(employees);
      }
      assert v != Some(p);
    }
  }

  /** With no usable ids the first id is "E001". */
  lemma NextEmployeeIdWithoutIds(employees: seq<Record>)
    requires IdNumbers(employees) == []
    ensures NextEmployeeId(employees) == "E001"
  {
    assert NatToString(1) == "1";
    assert PadStart("1", 3, '0') == "001";
  }

  /** `generateNextEmployeeId([])` is "E001". */
  lemma NextEmployeeIdOfEmpty()
    ensures NextEmployeeId([]) == "E001"
  {
    NextEmployeeIdWithoutIds([]);
  }

  /** A one-digit number is padded with two zeros: E001 to E009. */
  lemma FormatOneDigit(k: nat)
    requires k < 10
    ensures FormatEmployeeId(k) == ['E', '0', '0', DigitChar(k)]
  {
  }

  /** From 100 on no padding is added, and from 1000 on the id simply grows: nothing is cut. */
  lemma {:induction false} FormatWide(k: nat)
    requires k >= 100
    ensures FormatEmployeeId(k) == "E" + NatToString(k)
    ensures |FormatEmployeeId(k)| >= 4
  {
    assert |NatToString(k / 10)| >= 2;
  }

  // --------------------------------------------------- payroll metrics

  /** `n.toFixed(2)` read back as a number: half away from zero, on exact reals. */
  function Round2(x: real): real
  {
    if x >= 0.0 then (x * 100.0 + 0.5).Floor as real / 100.0
    else -(((-x) * 100.0 + 0.5).Floor as real / 100.0)
  }

  /** A whole number of hundredths. */
  predicate IsCents(x: real)
  {
    (x * 100.0).Floor as real == x * 100.0
  }

  lemma Round2IsCents(x: real)
    ensures IsCents(Round2(x))
  {
    if x >= 0.0 {
      var f := (x * 100.0 + 0.5).Floor;
      assert Round2(x) * 100.0 == f as real;
    } else {
      var f := ((-x) * 100.0 + 0.5).Floor;
      assert Round2(x) * 100.0 == (-f) as real;
    }
  }

  lemma Round2Error(x: real)
    ensures -0.005 <= Round2(x) - x <= 0.005
  {
  }

  lemma Round2OfCents(x: real)
    requires IsCents(x)
    ensures Round2(x) == x
  {
    var n := (x * 100.0).Floor;
    if x >= 0.0 {
      assert (x * 100.0 + 0.5).Floor == n;
    } else {
      assert ((-x) * 100.0 + 0.5).Floor == -n;
    }
  }

  /** Rounding twice is rounding once. */
  lemma Round2Idempotent(x: real)
    ensures Round2(Round2(x)) == Round2(x)
  {
    Round2IsCents(x);
    Round2OfCents(Round2(x));
  }

  /** `key.toLowerCase().includes("percentage")`. */
  predicate IsPercentageKey(k: string)
  {
    Contains(ToLower(k), "percentage")
  }

  /**
   * One pass of the rounding loop: a number-typed value under a key that is
   * neither a percentage nor `basicSalary` is rounded, NaN becoming 0.
   */
  function RoundEntry(k: string, v: Value): Value
  {
    if (v.Num? || v.NaN?) && !IsPercentageKey(k) && k != BasicSalaryKey then
      (if v.Num? then Num(Round2(v.x)) else Num(0.0))
    else v
  }

  lemma RoundEntryIdempotent(k: string, v: Value)
    ensures RoundEntry(k, RoundEntry(k, v)) == RoundEntry(k, v)
  {
    if v.Num? {
      Round2Idempotent(v.x);
    }
    assert Round2(0.0) == 0.0;
  }

  /** The figures the calculator derives before rounding. */
  /** `parseFloat(input[key]) || 0`. */
  function Input(input: Record, key: string): real
  {
    CoerceNumber(Get(input, key))
  }

  /** The nine inputs of the calculation, as the calculator coerces them. */
  datatype Inputs = Inputs(
    basicSalary: real, houseRentPct: real, medicalPct: real,
    conveyance: real, telephone: real, special: real, otherAllowances: real,
    incomeTaxPct: real, otherDeductions: real)

  function ReadInputs(input: Record): Inputs
  {
    Inputs(Input(input, BasicSalaryKey), Input(input, HouseRentPctKey), Input(input, MedicalPctKey),
      Input(input, ConveyanceKey), Input(input, TelephoneKey), Input(input, SpecialKey),
      Input(input, OtherAllowancesKey), Input(input, IncomeTaxPctKey), Input(input, OtherDeductionsKey))
  }

  /** The amounts the calculator derives, before rounding. */
  datatype Amounts = Amounts(
    houseRent: real, medical: real, gross: real, incomeTax: real, totalDeductions: real, net: real)

  function Derive(i: Inputs): Amounts
  {
    var houseRent := i.basicSalary * i.houseRentPct / 100.0;
    var medical := i.basicSalary * i.medicalPct / 100.0;
    var gross := i.basicSalary + houseRent + medical + i.conveyance + i.telephone + i.special + i.otherAllowances;
    var incomeTax := gross * i.incomeTaxPct / 100.0;
    var totalDeductions := incomeTax + i.otherDeductions;
    Amounts(houseRent, medical, gross, incomeTax, totalDeductions, gross - totalDeductions)
  }

  /** The record after the eight coercing assignments (`basicSalary` is only read). */
  function Coerced(input: Record, i: Inputs): Record
  {
    input[HouseRentPctKey := Num(i.houseRentPct)][MedicalPctKey := Num(i.medicalPct)]
      [ConveyanceKey := Num(i.conveyance)][TelephoneKey := Num(i.telephone)]
      [SpecialKey := Num(i.special)][OtherAllowancesKey := Num(i.otherAllowances)]
      [IncomeTaxPctKey := Num(i.incomeTaxPct)][OtherDeductionsKey := Num(i.otherDeductions)]
  }

  /** The record after the six assignments of derived amounts. */
  function WithAmounts(m: Record, a: Amounts): Record
  {
    m[HouseRentAmountKey := Num(a.houseRent)][MedicalAmountKey := Num(a.medical)]
      [GrossSalaryKey := Num(a.gross)][IncomeTaxAmountKey := Num(a.incomeTax)]
      [TotalDeductionsKey := Num(a.totalDeductions)][NetSalaryKey := Num(a.net)]
  }

  /** The record the rounding pass starts from. */
  function Assigned(input: Record, i: Inputs): Record
  {
    WithAmounts(Coerced(input, i), Derive(i))
  }

  function RoundAll(m: Record): Record
  {
    map k | k in m :: RoundEntry(k, m[k])
  }

  /** The calculation from given coerced inputs. */
  function MetricsFrom(input: Record, i: Inputs): Record
  {
    RoundAll(Assigned(input, i))[BasicSalaryKey := Num(i.basicSalary)]
  }

  /** `calculatePayrollMetrics(input)` as a value. */
  function PayrollMetrics(input: Record): Record
  {
    MetricsFrom(input, ReadInputs(input))
  }

  const MetricKeys: set<string> := {
    BasicSalaryKey, HouseRentPctKey, MedicalPctKey, ConveyanceKey, TelephoneKey, SpecialKey,
    OtherAllowancesKey, IncomeTaxPctKey, OtherDeductionsKey, HouseRentAmountKey, MedicalAmountKey,
    GrossSalaryKey, IncomeTaxAmountKey, TotalDeductionsKey, NetSalaryKey}

  /** The copy of the input and the coercing assignments of `calculatePayrollMetrics`. */
  method CoerceInputs(payrollDataFromForm: Record) returns (metrics: Record, inputs: Inputs)
    ensures inputs == ReadInputs(payrollDataFromForm)
    ensures metrics == Coerced(payrollDataFromForm, inputs)
  {
    metrics := payrollDataFromForm;
    var basicSalary := CoerceNumber(Get(metrics, BasicSalaryKey));
    assert Get(metrics, HouseRentPctKey) == Get(payrollDataFromForm, HouseRentPctKey);
    var hp := CoerceNumber(Get(metrics, HouseRentPctKey));
    metrics := metrics[HouseRentPctKey := Num(hp)];
    assert Get(metrics, MedicalPctKey) == Get(payrollDataFromForm, MedicalPctKey);
    var mp := CoerceNumber(Get(metrics, MedicalPctKey));
    metrics := metrics[MedicalPctKey := Num(mp)];
    assert Get(metrics, ConveyanceKey) == Get(payrollDataFromForm, ConveyanceKey);
    var c := CoerceNumber(Get(metrics, ConveyanceKey));
    metrics := metrics[ConveyanceKey := Num(c)];
    assert Get(metrics, TelephoneKey) == Get(payrollDataFromForm, TelephoneKey);
    var t := CoerceNumber(Get(metrics, TelephoneKey));
    metrics := metrics[TelephoneKey := Num(t)];
    assert Get(metrics, SpecialKey) == Get(payrollDataFromForm, SpecialKey);
    var s := CoerceNumber(Get(metrics, SpecialKey));
    metrics := metrics[SpecialKey := Num(s)];
    assert Get(metrics, OtherAllowancesKey) == Get(payrollDataFromForm, OtherAllowancesKey);
    var o := CoerceNumber(Get(metrics, OtherAllowancesKey));
    metrics := metrics[OtherAllowancesKey := Num(o)];
    assert Get(metrics, IncomeTaxPctKey) == Get(payrollDataFromForm, IncomeTaxPctKey);
    var tp := CoerceNumber(Get(metrics, IncomeTaxPctKey));
    metrics := metrics[IncomeTaxPctKey := Num(tp)];
    assert Get(metrics, OtherDeductionsKey) == Get(payrollDataFromForm, OtherDeductionsKey);
    var od := CoerceNumber(Get(metrics, OtherDeductionsKey));
    metrics := metrics[OtherDeductionsKey := Num(od)];
    inputs := Inputs(basicSalary, hp, mp, c, t, s, o, tp, od);
  }

  /** The assignments of the derived amounts, from the coerced inputs. */
  method AddAmounts(m: Record, inputs: Inputs) returns (metrics: Record)
    ensures metrics == WithAmounts(m, Derive(inputs))
  {
    metrics := m;
    var houseRent := inputs.basicSalary * inputs.houseRentPct / 100.0;
    metrics := metrics[HouseRentAmountKey := Num(houseRent)];
    var medical := inputs.basicSalary * inputs.medicalPct / 100.0;
    metrics := metrics[MedicalAmountKey := Num(medical)];
    var gross := inputs.basicSalary + houseRent + medical + inputs.conveyance + inputs.telephone
      + inputs.special + inputs.otherAllowances;
    metrics := metrics[GrossSalaryKey := Num(gross)];
    var incomeTax := gross * inputs.incomeTaxPct / 100.0;
    metrics := metrics[IncomeTaxAmountKey := Num(incomeTax)];
    var totalDeductions := incomeTax + inputs.otherDeductions;
    metrics := metrics[TotalDeductionsKey := Num(totalDeductions)];
    metrics := metrics[NetSalaryKey := Num(gross - totalDeductions)];
    assert Derive(inputs) == Amounts(houseRent, medical, gross, incomeTax, totalDeductions, gross - totalDeductions);
  }

  /** The `for...in` rounding pass, one key at a time. */
  method RoundNumbers(m: Record) returns (metrics: Record)
    ensures metrics == RoundAll(m)
  {
    metrics := m;
    var pending := m.Keys;
    while pending != {}
      invariant pending <= m.Keys && metrics.Keys == m.Keys
      invariant forall k :: k in m ==> metrics[k] == if k in pending then m[k] else RoundEntry(k, m[k])
      decreases pending
    {
      var key :| key in pending;
      metrics := metrics[key := RoundEntry(key, metrics[key])];
      pending := pending - {key};
    }
  }

  /**
   * `calculatePayrollMetrics`: copies the input, coerces the nine inputs,
   * assigns the derived amounts, rounds every number-typed key that is not a
   * percentage, and finally restores the coerced `basicSalary`.
   */
  method CalculatePayrollMetrics(payrollDataFromForm: Record) returns (metrics: Record)
    ensures metrics == PayrollMetrics(payrollDataFromForm)
  {
    var inputs;
    metrics, inputs := CoerceInputs(payrollDataFromForm);
    metrics := AddAmounts(metrics, inputs);
    metrics := RoundNumbers(metrics);
    metrics := metrics[BasicSalaryKey := Num(inputs.basicSalary)];
  }

  /** A key that lacks, in both cases, one of the letters of "percentage" is not a percentage key. */
  lemma NotPercentageKey(k: string, c: char)
    requires c in "percentage" && c !in k && (c as int - 32) as char !in k
    ensures !IsPercentageKey(k)
  {
    LowerAvoids(k, c);
    MissingCharNotContained(ToLower(k), "percentage", c);
  }

  lemma HouseRentPctIsPercentage()
    ensures IsPercentageKey(HouseRentPctKey)
  {
    ContainsAt(ToLower(HouseRentPctKey), "percentage", 18);
  }

  lemma MedicalPctIsPercentage()
    ensures IsPercentageKey(MedicalPctKey)
  {
    ContainsAt(ToLower(MedicalPctKey), "percentage", 16);
  }

  lemma IncomeTaxPctIsPercentage()
    ensures IsPercentageKey(IncomeTaxPctKey)
  {
    ContainsAt(ToLower(IncomeTaxPctKey), "percentage", 9);
  }

  /** The three percentage inputs are the keys the rounding pass skips by name. */
  lemma PercentageKeys()
    ensures IsPercentageKey(HouseRentPctKey) && IsPercentageKey(MedicalPctKey) && IsPercentageKey(IncomeTaxPctKey)
  {
    HouseRentPctIsPercentage();
    MedicalPctIsPercentage();
    IncomeTaxPctIsPercentage();
  }

  // One lemma per key keeps each evaluation of `includes` on a literal small.

  lemma ConveyanceNotPercentage()
    ensures !IsPercentageKey(ConveyanceKey)
  {
    NotPercentageKey(ConveyanceKey, 'g');
  }

  lemma TelephoneNotPercentage()
    ensures !IsPercentageKey(TelephoneKey)
  {
    NotPercentageKey(TelephoneKey, 'g');
  }

  lemma SpecialNotPercentage()
    ensures !IsPercentageKey(SpecialKey)
  {
    NotPercentageKey(SpecialKey, 'g');
  }

  lemma OtherAllowancesNotPercentage()
    ensures !IsPercentageKey(OtherAllowancesKey)
  {
    NotPercentageKey(OtherAllowancesKey, 'g');
  }

  lemma OtherDeductionsNotPercentage()
    ensures !IsPercentageKey(OtherDeductionsKey)
  {
    NotPercentageKey(OtherDeductionsKey, 'g');
  }

  lemma HouseRentAmountNotPercentage()
    ensures !IsPercentageKey(HouseRentAmountKey)
  {
    NotPercentageKey(HouseRentAmountKey, 'g');
  }

  lemma MedicalAmountNotPercentage()
    ensures !IsPercentageKey(MedicalAmountKey)
  {
    NotPercentageKey(MedicalAmountKey, 'g');
  }

  lemma GrossSalaryNotPercentage()
    ensures !IsPercentageKey(GrossSalaryKey)
  {
    NotPercentageKey(GrossSalaryKey, 'p');
  }

  lemma IncomeTaxAmountNotPercentage()
    ensures !IsPercentageKey(IncomeTaxAmountKey)
  {
    NotPercentageKey(IncomeTaxAmountKey, 'g');
  }

  lemma TotalDeductionsNotPercentage()
    ensures !IsPercentageKey(TotalDeductionsKey)
  {
    NotPercentageKey(TotalDeductionsKey, 'g');
  }

  lemma NetSalaryNotPercentage()
    ensures !IsPercentageKey(NetSalaryKey)
  {
    NotPercentageKey(NetSalaryKey, 'g');
  }

  /** The fixed inputs are not percentage keys, so the rounding pass rounds them. */
  lemma FixedInputKeys()
    ensures !IsPercentageKey(ConveyanceKey)
    ensures !IsPercentageKey(TelephoneKey)
    ensures !IsPercentageKey(SpecialKey)
    ensures !IsPercentageKey(OtherAllowancesKey)
    ensures !IsPercentageKey(OtherDeductionsKey)
  {
    ConveyanceNotPercentage();
    TelephoneNotPercentage();
    SpecialNotPercentage();
    OtherAllowancesNotPercentage();
    OtherDeductionsNotPercentage();
  }

  /** The derived amounts are not percentage keys, so the rounding pass rounds them. */
  lemma AmountKeys()
    ensures !IsPercentageKey(HouseRentAmountKey)
    ensures !IsPercentageKey(MedicalAmountKey)
    ensures !IsPercentageKey(GrossSalaryKey)
    ensures !IsPercentageKey(IncomeTaxAmountKey)
    ensures !IsPercentageKey(TotalDeductionsKey)
    ensures !IsPercentageKey(NetSalaryKey)
  {
    HouseRentAmountNotPercentage();
    MedicalAmountNotPercentage();
    GrossSalaryNotPercentage();
    IncomeTaxAmountNotPercentage();
    TotalDeductionsNotPercentage();
    NetSalaryNotPercentage();
  }

  /** The assignments leave the coerced inputs under their keys. */
  lemma AssignedInputs(input: Record, i: Inputs)
    ensures var w := Assigned(input, i);
      && HouseRentPctKey in w && w[HouseRentPctKey] == Num(i.houseRentPct)
      && MedicalPctKey in w && w[MedicalPctKey] == Num(i.medicalPct)
      && IncomeTaxPctKey in w && w[IncomeTaxPctKey] == Num(i.incomeTaxPct)
      && ConveyanceKey in w && w[ConveyanceKey] == Num(i.conveyance)
      && TelephoneKey in w && w[TelephoneKey] == Num(i.telephone)
      && SpecialKey in w && w[SpecialKey] == Num(i.special)
      && OtherAllowancesKey in w && w[OtherAllowancesKey] == Num(i.otherAllowances)
      && OtherDeductionsKey in w && w[OtherDeductionsKey] == Num(i.otherDeductions)
  {
  }

  /** The assignments leave the derived amounts under their keys. */
  lemma AssignedAmounts(input: Record, i: Inputs)
    ensures var w, a := Assigned(input, i), Derive(i);
      && HouseRentAmountKey in w && w[HouseRentAmountKey] == Num(a.houseRent)
      && MedicalAmountKey in w && w[MedicalAmountKey] == Num(a.medical)
      && GrossSalaryKey in w && w[GrossSalaryKey] == Num(a.gross)
      && IncomeTaxAmountKey in w && w[IncomeTaxAmountKey] == Num(a.incomeTax)
      && TotalDeductionsKey in w && w[TotalDeductionsKey] == Num(a.totalDeductions)
      && NetSalaryKey in w && w[NetSalaryKey] == Num(a.net)
  {
  }

  /** One key of the result: the rounding rule applied to what was assigned there. */
  lemma MetricsFromAt(input: Record, i: Inputs, k: string, v: Value)
    requires k != BasicSalaryKey && k in Assigned(input, i) && Assigned(input, i)[k] == v
    ensures k in MetricsFrom(input, i) && MetricsFrom(input, i)[k] == RoundEntry(k, v)
  {
  }

  /** `basicSalary` and the percentages come back as coerced, not rounded. */
  lemma MetricsFromPercentages(input: Record, i: Inputs)
    ensures var out := MetricsFrom(input, i);
      && out[BasicSalaryKey] == Num(i.basicSalary)
      && out[HouseRentPctKey] == Num(i.houseRentPct)
      && out[MedicalPctKey] == Num(i.medicalPct)
      && out[IncomeTaxPctKey] == Num(i.incomeTaxPct)
  {
    AssignedInputs(input, i);
    PercentageKeys();
    MetricsFromAt(input, i, HouseRentPctKey, Num(i.houseRentPct));
    MetricsFromAt(input, i, MedicalPctKey, Num(i.medicalPct));
    MetricsFromAt(input, i, IncomeTaxPctKey, Num(i.incomeTaxPct));
  }

  /** The fixed allowances and deductions come back rounded to cents. */
  lemma MetricsFromFixed(input: Record, i: Inputs)
    ensures var out := MetricsFrom(input, i);
      && out[ConveyanceKey] == Num(Round2(i.conveyance))
      && out[TelephoneKey] == Num(Round2(i.telephone))
      && out[SpecialKey] == Num(Round2(i.special))
      && out[OtherAllowancesKey] == Num(Round2(i.otherAllowances))
      && out[OtherDeductionsKey] == Num(Round2(i.otherDeductions))
  {
    AssignedInputs(input, i);
    FixedInputKeys();
    MetricsFromAt(input, i, ConveyanceKey, Num(i.conveyance));
    MetricsFromAt(input, i, TelephoneKey, Num(i.telephone));
    MetricsFromAt(input, i, SpecialKey, Num(i.special));
    MetricsFromAt(input, i, OtherAllowancesKey, Num(i.otherAllowances));
    MetricsFromAt(input, i, OtherDeductionsKey, Num(i.otherDeductions));
  }

  /** The derived amounts of basic pay, each rounded to cents on its own. */
  lemma MetricsFromAllowances(input: Record, i: Inputs)
    ensures var out, a := MetricsFrom(input, i), Derive(i);
      && HouseRentAmountKey in out && out[HouseRentAmountKey] == Num(Round2(a.houseRent))
      && MedicalAmountKey in out && out[MedicalAmountKey] == Num(Round2(a.medical))
      && GrossSalaryKey in out && out[GrossSalaryKey] == Num(Round2(a.gross))
  {
    var a := Derive(i);
    AssignedAmounts(input, i);
    AmountKeys();
    MetricsFromAt(input, i, HouseRentAmountKey, Num(a.houseRent));
    MetricsFromAt(input, i, MedicalAmountKey, Num(a.medical));
    MetricsFromAt(input, i, GrossSalaryKey, Num(a.gross));
  }

  /** The derived deduction and net amounts, each rounded to cents on its own. */
  lemma MetricsFromDeductions(input: Record, i: Inputs)
    ensures var out, a := MetricsFrom(input, i), Derive(i);
      && IncomeTaxAmountKey in out && out[IncomeTaxAmountKey] == Num(Round2(a.incomeTax))
      && TotalDeductionsKey in out && out[TotalDeductionsKey] == Num(Round2(a.totalDeductions))
      && NetSalaryKey in out && out[NetSalaryKey] == Num(Round2(a.net))
  {
    var a := Derive(i);
    AssignedAmounts(input, i);
    AmountKeys();
    MetricsFromAt(input, i, IncomeTaxAmountKey, Num(a.incomeTax));
    MetricsFromAt(input, i, TotalDeductionsKey, Num(a.totalDeductions));
    MetricsFromAt(input, i, NetSalaryKey, Num(a.net));
  }

  /**
   * Keys the calculator does not own keep their value, except that a
   * number-typed one that is not a percentage is rounded and NaN becomes 0;
   * the result has exactly the input's keys plus the calculator's.
   */
  lemma MetricsFromOtherKeys(input: Record, i: Inputs)
    ensures MetricsFrom(input, i).Keys == input.Keys + MetricKeys
    ensures forall k :: k in input && k !in MetricKeys ==> MetricsFrom(input, i)[k] == RoundEntry(k, input[k])
  {
  }

  /** What `calculatePayrollMetrics` returns, in terms of its coerced inputs. */
  lemma PayrollMetricsValues(input: Record)
    ensures var out, i := PayrollMetrics(input), ReadInputs(input);
      var a := Derive(i);
      && out.Keys == input.Keys + MetricKeys
      && out[BasicSalaryKey] == Num(i.basicSalary)
      && out[HouseRentPctKey] == Num(i.houseRentPct)
      && out[ConveyanceKey] == Num(Round2(i.conveyance))
      && out[GrossSalaryKey] == Num(Round2(a.gross))
      && out[TotalDeductionsKey] == Num(Round2(a.totalDeductions))
      && out[NetSalaryKey] == Num(Round2(a.net))
      && (forall k :: k in input && k !in MetricKeys ==> out[k] == RoundEntry(k, input[k]))
  {
    MetricsFromPercentages(input, ReadInputs(input));
    MetricsFromFixed(input, ReadInputs(input));
    MetricsFromAllowances(input, ReadInputs(input));
    MetricsFromDeductions(input, ReadInputs(input));
    MetricsFromOtherKeys(input, ReadInputs(input));
  }

  /** Strings and nulls under keys the calculator does not own pass through untouched. */
  lemma RoundEntryKeepsText(k: string, v: Value)
    requires v.Str? || v.Null?
    ensures RoundEntry(k, v) == v
  {
  }

  /** Net pay is gross pay less the deductions, that is less the tax share of it and the fixed deductions. */
  lemma DeriveNet(i: Inputs)
    ensures Derive(i).net == Derive(i).gross - Derive(i).totalDeductions
    ensures Derive(i).net == Derive(i).gross * (100.0 - i.incomeTaxPct) / 100.0 - i.otherDeductions
  {
  }

  /** Gross pay is basic pay grown by both percentages, plus the fixed allowances. */
  lemma DeriveGross(i: Inputs)
    ensures Derive(i).gross == i.basicSalary * (100.0 + i.houseRentPct + i.medicalPct) / 100.0
      + i.conveyance + i.telephone + i.special + i.otherAllowances
  {
  }

  /** Absent, empty, null or NaN inputs count as 0 and never fail. */
  lemma MissingInputsCountAsZero(input: Record, key: string)
    requires key !in input || input[key] == Str("") || input[key] == Null || input[key] == NaN
    ensures Input(input, key) == 0.0
  {
    if key in input && input[key] == Str("") {
      assert DigitRun("") == 0;
    }
  }

  /**
   * Net, gross and total deductions are each rounded on their own, so the
   * returned net differs from gross minus deductions by at most one cent.
   */
  lemma NetWithinOneCentFrom(input: Record, i: Inputs)
    ensures var out := MetricsFrom(input, i);
      && NetSalaryKey in out && GrossSalaryKey in out && TotalDeductionsKey in out
      && out[NetSalaryKey].Num? && out[GrossSalaryKey].Num? && out[TotalDeductionsKey].Num?
      && -0.01 <= out[NetSalaryKey].x - (out[GrossSalaryKey].x - out[TotalDeductionsKey].x) <= 0.01
  {
    var a := Derive(i);
    MetricsFromAllowances(input, i);
    MetricsFromDeductions(input, i);
    DeriveNet(i);
    RoundedDifference(a.gross, a.totalDeductions, a.net);
  }

  /** The same bound for `calculatePayrollMetrics` itself. */
  lemma NetWithinOneCent(input: Record)
    ensures var out := PayrollMetrics(input);
      && NetSalaryKey in out && GrossSalaryKey in out && TotalDeductionsKey in out
      && out[NetSalaryKey].Num? && out[GrossSalaryKey].Num? && out[TotalDeductionsKey].Num?
      && -0.01 <= out[NetSalaryKey].x - (out[GrossSalaryKey].x - out[TotalDeductionsKey].x) <= 0.01
  {
    NetWithinOneCentFrom(input, ReadInputs(input));
  }

  /** Rounding a difference and rounding its terms disagree by at most a cent. */
  lemma RoundedDifference(g: real, d: real, n: real)
    requires n == g - d
    ensures -0.01 <= Round2(n) - (Round2(g) - Round2(d)) <= 0.01
  {
    Round2Error(n);
    Round2Error(g);
    Round2Error(d);
    Round2IsCents(n);
    Round2IsCents(g);
    Round2IsCents(d);
    var z := (Round2(n) * 100.0).Floor - ((Round2(g) * 100.0).Floor - (Round2(d) * 100.0).Floor);
    assert z as real == (Round2(n) - (Round2(g) - Round2(d))) * 100.0;
    assert -1 <= z <= 1;
  }

  /** A number-typed input is used as it is. */
  lemma InputOfNumber(input: Record, key: string, x: real)
    requires key in input && input[key] == Num(x)
    ensures Input(input, key) == x
  {
  }

  /** The calculator's own keys depend only on the coerced inputs, not on the rest of the record. */
  lemma MetricsFromOwnKeys(input1: Record, input2: Record, i: Inputs)
    ensures forall k :: k in MetricKeys ==>
      k in MetricsFrom(input1, i) && k in MetricsFrom(input2, i) && MetricsFrom(input1, i)[k] == MetricsFrom(input2, i)[k]
  {
    forall k | k in MetricKeys
      ensures k in MetricsFrom(input1, i) && k in MetricsFrom(input2, i)
      ensures MetricsFrom(input1, i)[k] == MetricsFrom(input2, i)[k]
    {
      if k != BasicSalaryKey {
        assert Assigned(input1, i)[k] == Assigned(input2, i)[k];
      }
    }
  }

  /** The worked example: basic 5000, HRA 40%, medical 10%, 100 + 50 fixed, tax 10%, 20 deducted. */
  lemma PayrollMetricsExample(input: Record)
    requires input == map[
      BasicSalaryKey := Num(5000.0), HouseRentPctKey := Num(40.0), MedicalPctKey := Num(10.0),
      ConveyanceKey := Num(100.0), TelephoneKey := Num(50.0), SpecialKey := Num(0.0),
      OtherAllowancesKey := Num(0.0), IncomeTaxPctKey := Num(10.0), OtherDeductionsKey := Num(20.0)]
    ensures var out := PayrollMetrics(input);
      && Get(out, HouseRentAmountKey) == Some(Num(2000.0)) && Get(out, MedicalAmountKey) == Some(Num(500.0))
      && Get(out, GrossSalaryKey) == Some(Num(7650.0)) && Get(out, IncomeTaxAmountKey) == Some(Num(765.0))
      && Get(out, TotalDeductionsKey) == Some(Num(785.0)) && Get(out, NetSalaryKey) == Some(Num(6865.0))
  {
    var i := Inputs(5000.0, 40.0, 10.0, 100.0, 50.0, 0.0, 0.0, 10.0, 20.0);
    assert ReadInputs(input) == i by {
      InputOfNumber(input, BasicSalaryKey, 5000.0);
      InputOfNumber(input, HouseRentPctKey, 40.0);
      InputOfNumber(input, MedicalPctKey, 10.0);
      InputOfNumber(input, ConveyanceKey, 100.0);
      InputOfNumber(input, TelephoneKey, 50.0);
      InputOfNumber(input, SpecialKey, 0.0);
      InputOfNumber(input, OtherAllowancesKey, 0.0);
      InputOfNumber(input, IncomeTaxPctKey, 10.0);
      InputOfNumber(input, OtherDeductionsKey, 20.0);
    }
    assert Derive(i) == Amounts(2000.0, 500.0, 7650.0, 765.0, 785.0, 6865.0);
    MetricsFromAllowances(input, i);
    MetricsFromDeductions(input, i);
    Round2OfCents(2000.0);
    Round2OfCents(500.0);
    Round2OfCents(7650.0);
    Round2OfCents(765.0);
    Round2OfCents(785.0);
    Round2OfCents(6865.0);
  }

  /** Reading back a calculated record gives `basicSalary` and the percentages unchanged. */
  lemma InputsOfMetricsPercentages(input: Record, i: Inputs)
    ensures var out := MetricsFrom(input, i);
      && Input(out, BasicSalaryKey) == i.basicSalary
      && Input(out, HouseRentPctKey) == i.houseRentPct
      && Input(out, MedicalPctKey) == i.medicalPct
      && Input(out, IncomeTaxPctKey) == i.incomeTaxPct
  {
    var out := MetricsFrom(input, i);
    MetricsFromPercentages(input, i);
    InputOfNumber(out, BasicSalaryKey, i.basicSalary);
    InputOfNumber(out, HouseRentPctKey, i.houseRentPct);
    InputOfNumber(out, MedicalPctKey, i.medicalPct);
    InputOfNumber(out, IncomeTaxPctKey, i.incomeTaxPct);
  }

  /** Reading back a calculated record gives the fixed amounts rounded. */
  lemma InputsOfMetricsFixed(input: Record, i: Inputs)
    ensures var out := MetricsFrom(input, i);
      && Input(out, ConveyanceKey) == Round2(i.conveyance)
      && Input(out, TelephoneKey) == Round2(i.telephone)
      && Input(out, SpecialKey) == Round2(i.special)
      && Input(out, OtherAllowancesKey) == Round2(i.otherAllowances)
      && Input(out, OtherDeductionsKey) == Round2(i.otherDeductions)
  {
    var out := MetricsFrom(input, i);
    MetricsFromFixed(input, i);
    InputOfNumber(out, ConveyanceKey, Round2(i.conveyance));
    InputOfNumber(out, TelephoneKey, Round2(i.telephone));
    InputOfNumber(out, SpecialKey, Round2(i.special));
    InputOfNumber(out, OtherAllowancesKey, Round2(i.otherAllowances));
    InputOfNumber(out, OtherDeductionsKey, Round2(i.otherDeductions));
  }

  /** Reading back a calculated record gives the same coerced inputs, fixed amounts rounded. */
  lemma ReadInputsOfMetrics(input: Record, i: Inputs)
    ensures ReadInputs(MetricsFrom(input, i)) == i.(conveyance := Round2(i.conveyance),
      telephone := Round2(i.telephone), special := Round2(i.special),
      otherAllowances := Round2(i.otherAllowances), otherDeductions := Round2(i.otherDeductions))
  {
    InputsOfMetricsPercentages(input, i);
    InputsOfMetricsFixed(input, i);
  }

  /** Recalculating from the same coerced inputs changes nothing. */
  lemma MetricsFromStable(input: Record, i: Inputs)
    ensures MetricsFrom(MetricsFrom(input, i), i) == MetricsFrom(input, i)
  {
    var out := MetricsFrom(input, i);
    var again := MetricsFrom(out, i);
    MetricsFromOtherKeys(input, i);
    MetricsFromOtherKeys(out, i);
    MetricsFromOwnKeys(out, input, i);
    StableFromParts(input, out, again, MetricKeys);
  }

  /**
   * A recalculation that keeps the calculated keys and rounds every other
   * entry once more gives the same record, since rounding is idempotent.
   */
  lemma StableFromParts(input: Record, out: Record, again: Record, own: set<string>)
    requires out.Keys == input.Keys + own && again.Keys == out.Keys + own
    requires forall k :: k in own ==> k in out && k in again && again[k] == out[k]
    requires forall k :: k in input && k !in own ==> out[k] == RoundEntry(k, input[k])
    requires forall k :: k in out && k !in own ==> again[k] == RoundEntry(k, out[k])
    ensures again == out
  {
    forall k | k in out
      ensures again[k] == out[k]
    {
      if k !in own {
        assert k in input;
        RoundEntryIdempotent(k, input[k]);
      }
    }
  }

  /**
   * Recalculating a calculated record changes nothing, provided the fixed
   * allowances and deductions it started from were whole cents.
   */
  lemma PayrollMetricsIdempotent(input: Record)
    requires IsCents(Input(input, ConveyanceKey)) && IsCents(Input(input, TelephoneKey))
    requires IsCents(Input(input, SpecialKey)) && IsCents(Input(input, OtherAllowancesKey))
    requires IsCents(Input(input, OtherDeductionsKey))
    ensures PayrollMetrics(PayrollMetrics(input)) == PayrollMetrics(input)
  {
    var i := ReadInputs(input);
    Round2OfCents(i.conveyance);
    Round2OfCents(i.telephone);
    Round2OfCents(i.special);
    Round2OfCents(i.otherAllowances);
    Round2OfCents(i.otherDeductions);
    ReadInputsOfMetrics(input, i);
    MetricsFromStable(input, i);
  }

  /**
   * Without that proviso recalculation is not idempotent: two fixed
   * allowances of 0.004 give a gross of 0.01, but are themselves stored
   * as 0, so recalculating gives a gross of 0.
   */
  lemma RecalculationCanChangeGross(input: Record)
    requires input == map[ConveyanceKey := Num(0.004), TelephoneKey := Num(0.004)]
    ensures PayrollMetrics(input)[GrossSalaryKey] == Num(0.01)
    ensures PayrollMetrics(PayrollMetrics(input))[GrossSalaryKey] == Num(0.0)
  {
    var i := Inputs(0.0, 0.0, 0.0, 0.004, 0.004, 0.0, 0.0, 0.0, 0.0);
    SmallAllowancesInputs(input);
    MetricsFromAllowances(input, i);
    RecalculatedGross(input, i);
    SmallAllowancesGross(i);
  }

  /** The gross of a recalculation is derived from the rounded fixed inputs. */
  lemma RecalculatedGross(input: Record, i: Inputs)
    ensures PayrollMetrics(MetricsFrom(input, i))[GrossSalaryKey]
      == Num(Round2(Derive(i.(conveyance := Round2(i.conveyance), telephone := Round2(i.telephone),
        special := Round2(i.special), otherAllowances := Round2(i.otherAllowances),
        otherDeductions := Round2(i.otherDeductions))).gross))
  {
    var m := MetricsFrom(input, i);
    ReadInputsOfMetrics(input, i);
    MetricsFromAllowances(m, ReadInputs(m));
  }

  lemma SmallAllowancesGross(i: Inputs)
    requires i == Inputs(0.0, 0.0, 0.0, 0.004, 0.004, 0.0, 0.0, 0.0, 0.0)
    ensures Round2(Derive(i).gross) == 0.01
    ensures Round2(Derive(i.(conveyance := Round2(i.conveyance), telephone := Round2(i.telephone),
      special := Round2(i.special), otherAllowances := Round2(i.otherAllowances),
      otherDeductions := Round2(i.otherDeductions))).gross) == 0.0
  {
    GrossWithoutBasic(i);
    SmallRounding(Derive(i).gross, 0.01);
    SmallRounding(i.conveyance, 0.0);
    SmallRounding(i.telephone, 0.0);
    SmallRounding(i.special, 0.0);
    SmallRounding(i.otherAllowances, 0.0);
    SmallRounding(i.otherDeductions, 0.0);
    ZeroInputsGross(Inputs(0.0, 0.0, 0.0, 0.0, 0.0, 0.0, 0.0, 0.0, 0.0));
  }

  lemma ZeroInputsGross(j: Inputs)
    requires j == Inputs(0.0, 0.0, 0.0, 0.0, 0.0, 0.0, 0.0, 0.0, 0.0)
    ensures Round2(Derive(j).gross) == 0.0
  {
    GrossWithoutBasic(j);
    SmallRounding(Derive(j).gross, 0.0);
  }

  lemma SmallAllowancesInputs(input: Record)
    requires input == map[ConveyanceKey := Num(0.004), TelephoneKey := Num(0.004)]
    ensures ReadInputs(input) == Inputs(0.0, 0.0, 0.0, 0.004, 0.004, 0.0, 0.0, 0.0, 0.0)
  {
    InputOfNumber(input, ConveyanceKey, 0.004);
    InputOfNumber(input, TelephoneKey, 0.004);
    MissingInputsCountAsZero(input, BasicSalaryKey);
    MissingInputsCountAsZero(input, HouseRentPctKey);
    MissingInputsCountAsZero(input, MedicalPctKey);
    MissingInputsCountAsZero(input, SpecialKey);
    MissingInputsCountAsZero(input, OtherAllowancesKey);
    MissingInputsCountAsZero(input, IncomeTaxPctKey);
    MissingInputsCountAsZero(input, OtherDeductionsKey);
  }

  /** With no basic pay the percentages add nothing: gross is the fixed allowances. */
  lemma GrossWithoutBasic(i: Inputs)
    requires i.basicSalary == 0.0
    ensures Derive(i).gross == i.conveyance + i.telephone + i.special + i.otherAllowances
  {
  }

  lemma SmallRounding(x: real, r: real)
    requires (x == 0.0 && r == 0.0) || (x == 0.004 && r == 0.0) || (x == 0.008 && r == 0.01)
    ensures Round2(x) == r
  {
  }
}
