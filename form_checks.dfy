/**
 * What the employee forms of src/modals/EmployeeRecordModal.jsx and
 * src/modals/RecordModal.jsx share: the `forEach` that fills a new record's
 * form data, the trimmed text of a field, the email pattern
 * `/\S+@\S+\.\S+/`, the 7-15 digit phone rule, the number parsing of
 * `handleChange`, and the `validate` loop (required check, then format check).
 * The two components differ only in which fields they fill or skip and in
 * their messages; each passes its own rule to `Fill` and `Collect`.
 */
module FormChecks {
  import opened JsValues
  import opened Schema

  /** `value === undefined || value === null ? "" : String(value).trim()`. */
  function StringValue(v: Option<Value>, show: real -> string): string
  {
    match v
    case None => ""
    case Some(Null) => ""
    case Some(x) => Trim(JsValues.Text(x, show))
  }

  /**
   * `/\S+@\S+\.\S+/` matches at `@` position `i` and `.` position `j`: a
   * non-space before the `@`, only non-spaces between it and the `.`, and a
   * non-space after the `.`. Longer runs of non-spaces add nothing, since the
   * pattern is not anchored.
   */
  predicate EmailAt(s: string, i: int, j: int)
  {
    0 < i && i + 1 < j && j + 1 < |s|
      && !IsSpace(s[i - 1]) && s[i] == '@'
      && (forall k :: i < k < j ==> !IsSpace(s[k]))
      && s[j] == '.' && !IsSpace(s[j + 1])
  }

  /** `/\S+@\S+\.\S+/.test(s)`. */
  predicate EmailShaped(s: string)
  {
    exists i, j | 0 < i < |s| && 0 < j < |s| :: EmailAt(s, i, j)
  }

  /** `s.replace(/\D/g, "")`: the digits of `s`, in order. */
  function DigitsOf(s: string): (d: string)
    ensures AllDigits(d) && |d| <= |s|
    ensures forall c :: c in d <==> c in s && IsDigit(c)
  {
    if s == [] then []
    else
      var rest := DigitsOf(s[1..]);
      assert forall c :: c in s <==> c == s[0] || c in s[1..];
      if IsDigit(s[0]) then [s[0]] + rest else rest
  }

  /** Between 7 and 15 digits, whatever else the text holds. */
  predicate PhoneLengthOk(s: string)
  {
    7 <= |DigitsOf(s)| <= 15
  }

  /** `type === "number" && value !== "" ? parseFloat(value) : value`. */
  function ParsedIfNumber(kind: FieldType, value: Value): (v: Value)
    ensures kind != Number || value == Str("") ==> v == value
    ensures v != value ==> v.Num? || v.NaN?
  {
    if kind == Number && value != Str("") then ParsedValue(value) else value
  }

  /**
   * The `if (!newErrors[field.key])` block: a key without an error yet gets
   * the email or the phone message when its non-empty text breaks that rule.
   */
  function FormatCheck(errors: Record, key: string, kind: FieldType, text: string,
    emailMessage: string, phoneMessage: string): (r: Record)
    ensures Truthy(Get(errors, key)) ==> r == errors
    ensures forall k :: k != key ==> Get(r, k) == Get(errors, k)
  {
    if Truthy(Get(errors, key)) then errors
    else
      var afterEmail := if kind == Email && text != "" && !EmailShaped(text) then errors[key := Str(emailMessage)] else errors;
      if kind == Tel && text != "" && !PhoneLengthOk(text) then afterEmail[key := Str(phoneMessage)] else afterEmail
  }

  /** Empty text never draws a format error, and a well-formed one neither. */
  lemma FormatCheckPasses(errors: Record, key: string, kind: FieldType, text: string,
    emailMessage: string, phoneMessage: string)
    requires text == "" || ((kind == Email ==> EmailShaped(text)) && (kind == Tel ==> PhoneLengthOk(text)))
    ensures FormatCheck(errors, key, kind, text, emailMessage, phoneMessage) == errors
  {
  }

  /** A key without an error gets one exactly when its text breaks the format rule. */
  lemma FormatCheckFails(errors: Record, key: string, kind: FieldType, text: string,
    emailMessage: string, phoneMessage: string)
    requires !Truthy(Get(errors, key))
    ensures kind == Email && text != "" && !EmailShaped(text) ==>
      FormatCheck(errors, key, kind, text, emailMessage, phoneMessage) == errors[key := Str(emailMessage)]
    ensures kind == Tel && text != "" && !PhoneLengthOk(text) ==>
      FormatCheck(errors, key, kind, text, emailMessage, phoneMessage) == errors[key := Str(phoneMessage)]
  {
  }

  /** The digits of a concatenation are the digits of each part. */
  lemma {:induction false} DigitsOfAppend(a: string, b: string)
    ensures DigitsOf(a + b) == DigitsOf(a) + DigitsOf(b)
  {
    if a != [] {
      var head := if IsDigit(a[0]) then [a[0]] else [];
      assert (a + b)[0] == a[0] && (a + b)[1..] == a[1..] + b;
      calc {
        DigitsOf(a + b);
        head + DigitsOf(a[1..] + b);
        { DigitsOfAppend(a[1..], b); }
        head + (DigitsOf(a[1..]) + DigitsOf(b));
        (head + DigitsOf(a[1..])) + DigitsOf(b);
        DigitsOf(a) + DigitsOf(b);
      }
    } else {
      assert a + b == b;
    }
  }

  /** Text made of digits only is its own digit string. */
  lemma {:induction false} DigitsOfDigits(s: string)
    requires AllDigits(s)
    ensures DigitsOf(s) == s
  {
    if s != [] {
      DigitsOfDigits(s[1..]);
    }
  }

  /** Text without an `@` is never an email address. */
  lemma EmailNeedsAt(s: string)
    requires '@' !in s
    ensures !EmailShaped(s)
  {
    forall i, j | 0 < i < |s| && 0 < j < |s|
      ensures !EmailAt(s, i, j)
    {
      assert s[i] in s;
    }
  }

  /** `name@host.org` shapes pass. */
  lemma EmailOfParts(name: string, host: string, tld: string)
    requires name != [] && host != [] && tld != []
    requires forall c :: c in name + host + tld ==> !IsSpace(c)
    ensures EmailShaped(name + "@" + host + "." + tld)
  {
    var s := name + "@" + host + "." + tld;
    var i, j := |name|, |name| + 1 + |host|;
    assert s[i - 1] == name[|name| - 1] && name[|name| - 1] in name + host + tld;
    assert s[j + 1] == tld[0] && tld[0] in name + host + tld;
    forall k | i < k < j
      ensures !IsSpace(s[k])
    {
      assert s[k] == host[k - i - 1] && host[k - i - 1] in name + host + tld;
    }
    assert EmailAt(s, i, j);
  }

  // ---------------------------------------------------------------- filling a new record

  /**
   * The `forEach` over `allFields` that fills a new record: `start(f)` is the
   * value the component stores under `f.key`, or `None` when it skips `f`.
   */
  function Fill(data: Record, fields: seq<FieldDef>, start: FieldDef -> Option<Value>): Record
  {
    if fields == [] then data
    else
      var f := fields[|fields| - 1];
      var prev := Fill(data, fields[..|fields| - 1], start);
      match start(f)
      case Some(v) => prev[f.key := v]
      case None => prev
  }

  /** Some field of `fields` with key `k` is filled. */
  predicate FilledKey(fields: seq<FieldDef>, start: FieldDef -> Option<Value>, k: string)
  {
    exists i :: 0 <= i < |fields| && fields[i].key == k && start(fields[i]).Some?
  }

  lemma FilledKeySplit(fields: seq<FieldDef>, start: FieldDef -> Option<Value>, k: string)
    requires fields != []
    ensures var n := |fields| - 1;
      FilledKey(fields, start, k) <==>
        FilledKey(fields[..n], start, k) || (fields[n].key == k && start(fields[n]).Some?)
  {
    var n := |fields| - 1;
    if FilledKey(fields, start, k) {
      var i :| 0 <= i < |fields| && fields[i].key == k && start(fields[i]).Some?;
      if i < n {
        assert fields[..n][i] == fields[i];
      }
    }
    if FilledKey(fields[..n], start, k) {
      var i :| 0 <= i < n && fields[..n][i].key == k && start(fields[..n][i]).Some?;
      assert fields[i] == fields[..n][i];
    }
  }

  /** The filled record's keys: the starting record's and those of the filled fields. */
  lemma {:induction false} FillKeys(data: Record, fields: seq<FieldDef>, start: FieldDef -> Option<Value>)
    ensures forall k :: k in Fill(data, fields, start) <==> k in data || FilledKey(fields, start, k)
  {
    if fields != [] {
      var n := |fields| - 1;
      FillKeys(data, fields[..n], start);
      forall k
        ensures FilledKey(fields, start, k) <==> FilledKey(fields[..n], start, k) || (fields[n].key == k && start(fields[n]).Some?)
      {
        FilledKeySplit(fields, start, k);
      }
    }
  }

  /**
   * With distinct keys, a filled field holds its start value, and a key no
   * field fills keeps the starting record's value.
   */
  lemma {:induction false} FillAt(data: Record, fields: seq<FieldDef>, start: FieldDef -> Option<Value>, k: string)
    requires UniqueKeys(fields)
    ensures forall i :: 0 <= i < |fields| && fields[i].key == k && start(fields[i]).Some? ==>
      Get(Fill(data, fields, start), k) == start(fields[i])
    ensures !FilledKey(fields, start, k) ==> Get(Fill(data, fields, start), k) == Get(data, k)
  {
    if fields != [] {
      var n := |fields| - 1;
      var p := fields[..n];
      assert UniqueKeys(p);
      FillAt(data, p, start, k);
      FilledKeySplit(fields, start, k);
      forall i | 0 <= i < |fields| && fields[i].key == k && start(fields[i]).Some?
        ensures Get(Fill(data, fields, start), k) == start(fields[i])
      {
        if i < n {
          assert p[i] == fields[i];
        }
      }
    }
  }

  // ---------------------------------------------------------------- validation

  /**
   * What `validate` works out for one field before recording errors: its
   * trimmed text, whether it is required, and the three messages.
   */
  datatype Check = Check(text: string, required: bool, requiredMessage: string,
    emailMessage: string, phoneMessage: string)

  /** A non-empty text that breaks the email or the phone rule of its field type. */
  predicate FormatBad(kind: FieldType, text: string)
  {
    text != "" && ((kind == Email && !EmailShaped(text)) || (kind == Tel && !PhoneLengthOk(text)))
  }

  /** The field draws an error: required and blank, or badly formatted. */
  predicate Fails(f: FieldDef, c: Check)
  {
    (c.required && c.text == "") || FormatBad(f.kind, c.text)
  }

  /** One iteration of `validate`: the required check, then the format check. */
  function Apply(errors: Record, f: FieldDef, c: Check): (r: Record)
    ensures forall k :: k in r <==> k in errors || (k == f.key && Fails(f, c))
    ensures forall k :: k != f.key ==> Get(r, k) == Get(errors, k)
  {
    var afterRequired := if c.required && c.text == "" then errors[f.key := Str(c.requiredMessage)] else errors;
    FormatCheck(afterRequired, f.key, f.kind, c.text, c.emailMessage, c.phoneMessage)
  }

  /**
   * The message a field gets: the required one when required and blank (the
   * format rules never apply to blank text), else the format one when the
   * key has no error yet; at most one message per field.
   */
  lemma ApplyMessage(errors: Record, f: FieldDef, c: Check)
    ensures c.required && c.text == "" ==> Get(Apply(errors, f, c), f.key) == Some(Str(c.requiredMessage))
    ensures !(c.required && c.text == "") && !Truthy(Get(errors, f.key)) && FormatBad(f.kind, c.text) ==>
      Get(Apply(errors, f, c), f.key) == Some(Str(if f.kind == Email then c.emailMessage else c.phoneMessage))
    ensures !Fails(f, c) ==> Apply(errors, f, c) == errors
  {
  }

  /** The `validate` loop: `check(f)` is `None` for a field the component skips. */
  function Collect(fields: seq<FieldDef>, check: FieldDef -> Option<Check>): Record
  {
    if fields == [] then map[]
    else
      var f := fields[|fields| - 1];
      var prev := Collect(fields[..|fields| - 1], check);
      match check(f)
      case Some(c) => Apply(prev, f, c)
      case None => prev
  }

  /** The field is checked and fails. */
  predicate FailsUnder(f: FieldDef, check: FieldDef -> Option<Check>)
  {
    check(f).Some? && Fails(f, check(f).value)
  }

  /** Some field of `fields` with key `k` fails. */
  predicate FailingKey(fields: seq<FieldDef>, check: FieldDef -> Option<Check>, k: string)
  {
    exists i :: 0 <= i < |fields| && fields[i].key == k && FailsUnder(fields[i], check)
  }

  lemma FailingKeySplit(fields: seq<FieldDef>, check: FieldDef -> Option<Check>, k: string)
    requires fields != []
    ensures var n := |fields| - 1;
      FailingKey(fields, check, k) <==>
        FailingKey(fields[..n], check, k) || (fields[n].key == k && FailsUnder(fields[n], check))
  {
    var n := |fields| - 1;
    if FailingKey(fields, check, k) {
      var i :| 0 <= i < |fields| && fields[i].key == k && FailsUnder(fields[i], check);
      if i < n {
        assert fields[..n][i] == fields[i];
      }
    }
    if FailingKey(fields[..n], check, k) {
      var i :| 0 <= i < n && fields[..n][i].key == k && FailsUnder(fields[..n][i], check);
      assert fields[i] == fields[..n][i];
    }
  }

  /** A key carries an error exactly when some field under it fails. */
  lemma {:induction false} CollectKeys(fields: seq<FieldDef>, check: FieldDef -> Option<Check>)
    ensures forall k :: k in Collect(fields, check) <==> FailingKey(fields, check, k)
  {
    if fields != [] {
      var n := |fields| - 1;
      CollectKeys(fields[..n], check);
      forall k
        ensures FailingKey(fields, check, k) <==> FailingKey(fields[..n], check, k) || (fields[n].key == k && FailsUnder(fields[n], check))
      {
        FailingKeySplit(fields, check, k);
      }
    }
  }

  /** `Object.keys(newErrors).length === 0` exactly when no checked field fails. */
  lemma CollectEmptyIff(fields: seq<FieldDef>, check: FieldDef -> Option<Check>)
    ensures |Collect(fields, check)| == 0 <==> forall i :: 0 <= i < |fields| ==> !FailsUnder(fields[i], check)
  {
    var errors := Collect(fields, check);
    CollectKeys(fields, check);
    if |errors| != 0 {
      var k :| k in errors;
      assert FailingKey(fields, check, k);
    } else {
      forall i | 0 <= i < |fields|
        ensures !FailsUnder(fields[i], check)
      {
        assert fields[i].key !in errors;
      }
    }
  }

  /** With distinct keys, each field's error is the one it would get on its own. */
  lemma {:induction false} CollectAt(fields: seq<FieldDef>, check: FieldDef -> Option<Check>, i: nat)
    requires UniqueKeys(fields) && i < |fields|
    ensures Get(Collect(fields, check), fields[i].key) ==
      match check(fields[i])
      case Some(c) => Get(Apply(map[], fields[i], c), fields[i].key)
      case None => None
  {
    var n := |fields| - 1;
    var p := fields[..n];
    assert UniqueKeys(p);
    if i < n {
      assert p[i] == fields[i];
      CollectAt(p, check, i);
    } else {
      CollectKeys(p, check);
      forall j | 0 <= j < n
        ensures p[j].key != fields[i].key
      {
        assert p[j] == fields[j];
      }
      assert fields[i].key !in Collect(p, check);
    }
  }
}
