/**
 * Validation of an order submission: the order form (address, work date and
 * an optional promo code chosen among the active ones) and the formset of
 * order items (at least one item, quantity at least 1, no service twice).
 */
module CleaningForms {
  import opened Wrappers
  import opened CleaningModels

  const RequiredMessage: string := "This field is required."
  const InvalidChoiceMessage: string := "Select a valid choice. That choice is not one of the available choices."
  const PromoInvalidMessage: string := "This promo code is expired or invalid"
  const NullCharactersMessage: string := "Null characters are not allowed."

  /** `w` occurs in `s` at position `i`. */
  predicate OccursAt(s: string, w: string, i: nat)
  {
    i + |w| <= |s| && s[i..i + |w|] == w
  }

  /** `w` occurs somewhere in `s`. */
  predicate Contains(s: string, w: string)
  {
    exists i: nat :: i <= |s| && OccursAt(s, w, i)
  }

  // ---------------------------------------------------------------------------
  // The promo-code field
  // ---------------------------------------------------------------------------

  /** The field's queryset: the active promo codes, in stored order. */
  function ActivePromoCodes(codes: seq<PromoCode>): (r: seq<PromoCode>)
    ensures forall p :: p in r <==> p in codes && p.isActive
    ensures |r| <= |codes|
  {
    if codes == [] then []
    else (if codes[0].isActive then [codes[0]] else []) + ActivePromoCodes(codes[1..])
  }

  /** Looking up a submitted key among the choices. */
  function FindPromo(choices: seq<PromoCode>, id: nat): (r: Option<PromoCode>)
    ensures r.Some? ==> r.value in choices && r.value.id == id
    ensures r.None? <==> forall p :: p in choices ==> p.id != id
  {
    if choices == [] then None
    else if choices[0].id == id then Some(choices[0])
    else FindPromo(choices[1..], id)
  }

  /** No two stored promo codes share a key. */
  predicate UniqueIds(codes: seq<PromoCode>)
  {
    forall i, j :: 0 <= i < |codes| && 0 <= j < |codes| && codes[i].id == codes[j].id ==> i == j
  }

  /**
   * The promo field: optional, a choice among the active codes, and then
   * `clean_promo_code`, which refuses a chosen code that `isValid` (the
   * model's `is_valid`) rejects.
   */
  function CleanPromoCode(choice: Option<nat>, codes: seq<PromoCode>, isValid: PromoCode -> bool)
    : (r: Result<Option<PromoCode>, string>)
    ensures choice == None ==> r == Ok(None)
    ensures r.Ok? && r.value.Some? ==>
      choice == Some(r.value.value.id) && r.value.value in codes && r.value.value.isActive && isValid(r.value.value)
    ensures r.Err? ==> choice.Some? && (r.error == InvalidChoiceMessage || r.error == PromoInvalidMessage)
  {
    match choice
    case None => Ok(None)
    case Some(id) =>
      match FindPromo(ActivePromoCodes(codes), id)
      case None => Err(InvalidChoiceMessage)
      case Some(p) => if !isValid(p) then Err(PromoInvalidMessage) else Ok(Some(p))
  }

  /** A chosen active code that is valid is returned unchanged. */
  lemma PromoAccepted(p: PromoCode, codes: seq<PromoCode>, isValid: PromoCode -> bool)
    requires UniqueIds(codes) && p in codes && p.isActive && isValid(p)
    ensures CleanPromoCode(Some(p.id), codes, isValid) == Ok(Some(p))
  {
    var r := FindPromo(ActivePromoCodes(codes), p.id);
    assert p in ActivePromoCodes(codes);
    var q := r.value;
    var i :| 0 <= i < |codes| && codes[i] == p;
    var j :| 0 <= j < |codes| && codes[j] == q;
  }

  /** A chosen active code that is not valid is refused with the expiry message. */
  lemma PromoRejected(p: PromoCode, codes: seq<PromoCode>, isValid: PromoCode -> bool)
    requires UniqueIds(codes) && p in codes && p.isActive && !isValid(p)
    ensures CleanPromoCode(Some(p.id), codes, isValid) == Err(PromoInvalidMessage)
  {
    var r := FindPromo(ActivePromoCodes(codes), p.id);
    assert p in ActivePromoCodes(codes);
    var q := r.value;
    var i :| 0 <= i < |codes| && codes[i] == p;
    var j :| 0 <= j < |codes| && codes[j] == q;
  }

  /** A key that names no active code is not a choice at all, whatever `isValid` says. */
  lemma InactivePromoNotOffered(id: nat, codes: seq<PromoCode>, isValid: PromoCode -> bool)
    requires forall p :: p in codes && p.id == id ==> !p.isActive
    ensures CleanPromoCode(Some(id), codes, isValid) == Err(InvalidChoiceMessage)
  {
  }

  // ---------------------------------------------------------------------------
  // The order form
  // ---------------------------------------------------------------------------

  /** What is submitted: `None` stands for a missing or empty value. */
  datatype OrderFormData = OrderFormData(address: Option<string>, workDate: Option<int>, promoCode: Option<nat>)

  datatype OrderFormField = AddressInput | WorkDateInput | PromoInput

  /** The characters Python's `str.strip()` removes (those `str.isspace` accepts). */
  predicate IsSpace(c: char)
  {
    ('\t' <= c <= '\r') || ('\U{1C}' <= c <= ' ') || c == '\U{85}' || c == '\U{A0}' || c == '\U{1680}'
    || ('\U{2000}' <= c <= '\U{200A}') || c == '\U{2028}' || c == '\U{2029}' || c == '\U{202F}'
    || c == '\U{205F}' || c == '\U{3000}'
  }

  /** A text value that is missing or nothing but whitespace (the field strips it). */
  predicate Blank(s: Option<string>)
  {
    s == None || forall i :: 0 <= i < |s.value| ==> IsSpace(s.value[i])
  }

  /** A text value holding a NUL character, which every form text field refuses. */
  predicate HasNul(s: Option<string>)
  {
    s.Some? && '\0' in s.value
  }

  /**
   * The errors of the order form, one message per failing field. A blank
   * address fails as required; only a non-blank one reaches the validator
   * that refuses NUL characters.
   */
  function OrderFormErrors(data: OrderFormData, codes: seq<PromoCode>, isValid: PromoCode -> bool)
    : (errors: map<OrderFormField, string>)
    ensures AddressInput in errors <==> Blank(data.address) || HasNul(data.address)
    ensures WorkDateInput in errors <==> data.workDate == None
    ensures PromoInput in errors <==> CleanPromoCode(data.promoCode, codes, isValid).Err?
    ensures Blank(data.address) ==> errors[AddressInput] == RequiredMessage
    ensures !Blank(data.address) && HasNul(data.address) ==> errors[AddressInput] == NullCharactersMessage
    ensures WorkDateInput in errors ==> errors[WorkDateInput] == RequiredMessage
  {
    var promo := CleanPromoCode(data.promoCode, codes, isValid);
    (if Blank(data.address) then map[AddressInput := RequiredMessage]
     else if HasNul(data.address) then map[AddressInput := NullCharactersMessage]
     else map[])
    + (if data.workDate == None then map[WorkDateInput := RequiredMessage] else map[])
    + (if promo.Err? then map[PromoInput := promo.error] else map[])
  }

  /** An empty submission fails on both the address and the work date. */
  lemma EmptyOrderFormRejected(codes: seq<PromoCode>, isValid: PromoCode -> bool)
    ensures AddressInput in OrderFormErrors(OrderFormData(None, None, None), codes, isValid)
    ensures WorkDateInput in OrderFormErrors(OrderFormData(None, None, None), codes, isValid)
  {
  }

  /** An address holding a NUL character is refused, even though it is not blank. */
  lemma NulAddressRejected(now: int, codes: seq<PromoCode>, isValid: PromoCode -> bool)
    ensures OrderFormErrors(OrderFormData(Some("a\0"), Some(now), None), codes, isValid)
      == map[AddressInput := NullCharactersMessage]
  {
    assert !IsSpace("a\0"[0]);
    assert "a\0"[1] == '\0';
  }

  /** An address, a date and an active, valid code: the form has no errors. */
  lemma OrderFormWithValidPromoAccepted(now: int, p: PromoCode, codes: seq<PromoCode>, isValid: PromoCode -> bool)
    requires UniqueIds(codes) && p in codes && p.isActive && isValid(p)
    ensures OrderFormErrors(OrderFormData(Some("123 Main St"), Some(now), Some(p.id)), codes, isValid) == map[]
  {
    PromoAccepted(p, codes, isValid);
    assert !IsSpace("123 Main St"[0]);
  }

  // ---------------------------------------------------------------------------
  // The order-item formset
  // ---------------------------------------------------------------------------

  /** The formset's `min_num`, checked because of `validate_min`. */
  const MinNum: nat := 1

  /** The model's default quantity, which is also the quantity field's initial value. */
  const DefaultQuantity: int := 1

  /** One submitted item row: `None` stands for a field left empty. */
  datatype ItemInput = ItemInput(service: Option<nat>, quantity: Option<int>)

  datatype RowError =
    | ServiceRequired
    | InvalidService
    | QuantityRequired
    | QuantityNegative
    | QuantityBelowMinimum
    | DuplicateRow

  datatype FormsetError = TooFewForms | DuplicateData

  datatype FormsetReport = FormsetReport(rowErrors: seq<seq<RowError>>, nonFormErrors: seq<FormsetError>)

  function RowMessage(e: RowError): string
  {
    match e
    case ServiceRequired => "This field is required."
    case InvalidService => "Select a valid choice. That choice is not one of the available choices."
    case QuantityRequired => "This field is required."
    case QuantityNegative => "Ensure this value is greater than or equal to 0."
    case QuantityBelowMinimum => "Ensure this value is greater than or equal to 1."
    case DuplicateRow => "Please correct the duplicate values below."
  }

  function FormsetMessage(e: FormsetError): string
  {
    match e
    case TooFewForms => "Please submit at least 1 form."
    case DuplicateData => "Please correct the duplicate data for order and service, which must be unique."
  }

  /** A row whose fields are as the form first showed them: no service, the initial quantity. */
  predicate Unchanged(row: ItemInput)
  {
    row.service == None && row.quantity == Some(DefaultQuantity)
  }

  /** An extra row left unchanged is not validated at all. */
  predicate Skipped(rows: seq<ItemInput>, i: nat)
    requires i < |rows|
  {
    i >= MinNum && Unchanged(rows[i])
  }

  /** The field errors of a validated row; `catalog` holds the keys of the services. */
  function FieldErrors(catalog: set<nat>, row: ItemInput): (errs: seq<RowError>)
    ensures errs == [] <==> row.service.Some? && row.service.value in catalog && row.quantity.Some? && row.quantity.value >= 1
  {
    (match row.service
     case None => [ServiceRequired]
     case Some(id) => if id in catalog then [] else [InvalidService])
    + (match row.quantity
       case None => [QuantityRequired]
       case Some(q) => if q < 0 then [QuantityNegative] else if q < 1 then [QuantityBelowMinimum] else [])
  }

  /** The number of rows the submitter changed, which `min_num` is checked against. */
  function ChangedCount(rows: seq<ItemInput>): nat
  {
    if rows == [] then 0
    else ChangedCount(rows[..|rows| - 1]) + (if Unchanged(rows[|rows| - 1]) then 0 else 1)
  }

  predicate TooFew(rows: seq<ItemInput>)
  {
    ChangedCount(rows) < MinNum
  }

  /** A row that is validated and valid takes part in the uniqueness check. */
  predicate Participates(catalog: set<nat>, rows: seq<ItemInput>, i: nat)
    requires i < |rows|
  {
    !Skipped(rows, i) && FieldErrors(catalog, rows[i]) == []
  }

  /** Row `i` repeats the service of an earlier participating row. */
  predicate DuplicateAt(catalog: set<nat>, rows: seq<ItemInput>, i: nat)
    requires i < |rows|
  {
    Participates(catalog, rows, i)
    && exists j :: 0 <= j < i && Participates(catalog, rows, j) && rows[j].service == rows[i].service
  }

  /** The errors of one row before the uniqueness check. */
  function FirstPassErrors(catalog: set<nat>, rows: seq<ItemInput>, i: nat): seq<RowError>
    requires i < |rows|
  {
    if Skipped(rows, i) then [] else FieldErrors(catalog, rows[i])
  }

  /**
   * The errors reported on row `i`. The uniqueness check runs only once the
   * minimum number of rows is met.
   */
  function ExpectedRowErrors(catalog: set<nat>, rows: seq<ItemInput>, i: nat): seq<RowError>
    requires i < |rows|
  {
    FirstPassErrors(catalog, rows, i)
    + (if !TooFew(rows) && DuplicateAt(catalog, rows, i) then [DuplicateRow] else [])
  }

  /**
   * The formset-wide duplicate messages for the first `n` rows: one for every
   * row that repeats the service of an earlier participating row.
   */
  function DuplicateMessages(catalog: set<nat>, rows: seq<ItemInput>, n: nat): (r: seq<FormsetError>)
    requires n <= |rows|
    ensures |r| <= n
    ensures forall k :: 0 <= k < |r| ==> r[k] == DuplicateData
    decreases n
  {
    if n == 0 then []
    else DuplicateMessages(catalog, rows, n - 1) + (if DuplicateAt(catalog, rows, n - 1) then [DuplicateData] else [])
  }

  /** There are no duplicate messages exactly when no row repeats a service. */
  lemma {:induction false} NoDuplicateMessages(catalog: set<nat>, rows: seq<ItemInput>, n: nat)
    requires n <= |rows|
    ensures DuplicateMessages(catalog, rows, n) == [] <==> forall i :: 0 <= i < n ==> !DuplicateAt(catalog, rows, i)
    decreases n
  {
    if n > 0 {
      NoDuplicateMessages(catalog, rows, n - 1);
    }
  }

  /**
   * The errors reported on the formset as a whole: the minimum is checked
   * first, and only a formset that meets it is checked for repeated services.
   */
  function ExpectedFormsetErrors(catalog: set<nat>, rows: seq<ItemInput>): seq<FormsetError>
  {
    if TooFew(rows) then [TooFewForms]
    else DuplicateMessages(catalog, rows, |rows|)
  }

  predicate ReportValid(report: FormsetReport)
  {
    report.nonFormErrors == [] && forall i :: 0 <= i < |report.rowErrors| ==> report.rowErrors[i] == []
  }

  /**
   * The first pass of the formset's validation: every row is validated,
   * except an extra row left unchanged, and the changed rows are counted.
   */
  method ValidateRows(catalog: set<nat>, rows: seq<ItemInput>) returns (errs: seq<seq<RowError>>, changed: nat)
    ensures |errs| == |rows|
    ensures forall k :: 0 <= k < |rows| ==> errs[k] == FirstPassErrors(catalog, rows, k)
    ensures changed == ChangedCount(rows)
  {
    errs := [];
    changed := 0;
    var i := 0;
    while i < |rows|
      invariant 0 <= i <= |rows|
      invariant |errs| == i
      invariant forall k :: 0 <= k < i ==> errs[k] == FirstPassErrors(catalog, rows, k)
      invariant changed == ChangedCount(rows[..i])
    {
      var rowErrs := if i >= MinNum && Unchanged(rows[i]) then [] else FieldErrors(catalog, rows[i]);
      if !Unchanged(rows[i]) {
        changed := changed + 1;
      }
      assert rows[..i + 1][..i] == rows[..i];
      errs := errs + [rowErrs];
      i := i + 1;
    }
    assert rows[..i] == rows;
  }

  /**
   * The uniqueness check: walk the valid rows keeping the services seen so
   * far, and flag every row whose service was seen before, adding one
   * formset message for each such row.
   */
  method CheckUniqueServices(catalog: set<nat>, rows: seq<ItemInput>, errs0: seq<seq<RowError>>)
    returns (errs: seq<seq<RowError>>, dups: seq<FormsetError>)
    requires |errs0| == |rows|
    ensures |errs| == |rows|
    ensures forall k :: 0 <= k < |rows| ==>
      errs[k] == errs0[k] + (if DuplicateAt(catalog, rows, k) then [DuplicateRow] else [])
    ensures dups == DuplicateMessages(catalog, rows, |rows|)
  {
    errs := errs0;
    var seen: set<nat> := {};
    dups := [];
    var i := 0;
    while i < |rows|
      invariant 0 <= i <= |rows|
      invariant |errs| == |rows|
      invariant forall k :: 0 <= k < i ==> errs[k] == errs0[k] + (if DuplicateAt(catalog, rows, k) then [DuplicateRow] else [])
      invariant forall k :: i <= k < |rows| ==> errs[k] == errs0[k]
      invariant forall j :: 0 <= j < i && Participates(catalog, rows, j) ==> rows[j].service.value in seen
      invariant forall x :: x in seen ==> exists j :: 0 <= j < i && Participates(catalog, rows, j) && rows[j].service == Some(x)
      invariant dups == DuplicateMessages(catalog, rows, i)
    {
      if Participates(catalog, rows, i) {
        var s := rows[i].service.value;
        if s in seen {
          assert DuplicateAt(catalog, rows, i);
          errs := errs[i := errs[i] + [DuplicateRow]];
          dups := dups + [DuplicateData];
        } else {
          assert !DuplicateAt(catalog, rows, i);
          seen := seen + {s};
        }
      }
      i := i + 1;
    }
  }

  /**
   * Validating the submitted item rows as the formset does: validate each row
   * and count the changed ones; check the minimum; only then check that no
   * service appears twice.
   */
  method ValidateItemFormset(catalog: set<nat>, rows: seq<ItemInput>) returns (report: FormsetReport)
    ensures |report.rowErrors| == |rows|
    ensures forall i :: 0 <= i < |rows| ==> report.rowErrors[i] == ExpectedRowErrors(catalog, rows, i)
    ensures report.nonFormErrors == ExpectedFormsetErrors(catalog, rows)
  {
    var errs, changed := ValidateRows(catalog, rows);
    if changed < MinNum {
      report := FormsetReport(errs, [TooFewForms]);
      return;
    }
    var errs', dups := CheckUniqueServices(catalog, rows, errs);
    report := FormsetReport(errs', dups);
  }

  /** The rules a submission of item rows must meet. */
  predicate ItemsAcceptable(catalog: set<nat>, rows: seq<ItemInput>)
  {
    ChangedCount(rows) >= MinNum
    && (forall i :: 0 <= i < |rows| && !Skipped(rows, i) ==> FieldErrors(catalog, rows[i]) == [])
    && (forall i, j :: 0 <= j < i < |rows| && Participates(catalog, rows, j) && Participates(catalog, rows, i)
          ==> rows[j].service != rows[i].service)
  }

  /** The formset reports no error at all exactly when the submission meets the rules. */
  lemma FormsetValidIff(catalog: set<nat>, rows: seq<ItemInput>)
    ensures (ExpectedFormsetErrors(catalog, rows) == [] && forall i :: 0 <= i < |rows| ==> ExpectedRowErrors(catalog, rows, i) == [])
            <==> ItemsAcceptable(catalog, rows)
  {
    NoDuplicateMessages(catalog, rows, |rows|);
    if ExpectedFormsetErrors(catalog, rows) == [] && forall i :: 0 <= i < |rows| ==> ExpectedRowErrors(catalog, rows, i) == [] {
      forall i, j | 0 <= j < i < |rows| && Participates(catalog, rows, j) && Participates(catalog, rows, i)
        ensures rows[j].service != rows[i].service
      {
        if rows[j].service == rows[i].service {
          assert DuplicateAt(catalog, rows, i);
        }
      }
      forall i | 0 <= i < |rows| && !Skipped(rows, i) ensures FieldErrors(catalog, rows[i]) == [] {
        assert ExpectedRowErrors(catalog, rows, i) == [];
      }
    }
    if ItemsAcceptable(catalog, rows) {
      assert forall i :: 0 <= i < |rows| ==> !DuplicateAt(catalog, rows, i);
    }
  }

  /**
   * A quantity below 1 on a validated row is reported on that row, whatever
   * else fails: a negative one by the form field's bound of 0, a zero by the
   * model's bound of 1.
   */
  lemma QuantityErrorReported(catalog: set<nat>, rows: seq<ItemInput>, i: nat)
    requires i < |rows| && rows[i].quantity.Some? && rows[i].quantity.value < 1
    ensures rows[i].quantity.value < 0 ==> QuantityNegative in ExpectedRowErrors(catalog, rows, i)
    ensures rows[i].quantity.value == 0 ==> QuantityBelowMinimum in ExpectedRowErrors(catalog, rows, i)
    ensures !Participates(catalog, rows, i)
  {
    assert !Unchanged(rows[i]);
    var f := FieldErrors(catalog, rows[i]);
    assert f[|f| - 1] == (if rows[i].quantity.value < 0 then QuantityNegative else QuantityBelowMinimum);
  }

  /**
   * When two participating rows name the same service the later one carries
   * the duplicate error, the formset reports duplicate data, and the first
   * row with that service never carries the error.
   */
  lemma DuplicateOnLaterRow(catalog: set<nat>, rows: seq<ItemInput>, j: nat, i: nat)
    requires j < i < |rows|
    requires Participates(catalog, rows, j) && Participates(catalog, rows, i)
    requires rows[j].service == rows[i].service
    ensures DuplicateRow in ExpectedRowErrors(catalog, rows, i)
    ensures DuplicateData in ExpectedFormsetErrors(catalog, rows)
    ensures TooFewForms !in ExpectedFormsetErrors(catalog, rows)
    ensures forall k :: 0 <= k < |rows| && Participates(catalog, rows, k) && rows[k].service == rows[i].service
              && (forall m :: 0 <= m < k && Participates(catalog, rows, m) ==> rows[m].service != rows[k].service)
              ==> DuplicateRow !in ExpectedRowErrors(catalog, rows, k)
  {
    assert DuplicateAt(catalog, rows, i);
    ChangedCountPositive(rows, i);
    DuplicateMessageAt(catalog, rows, i, |rows|);
    assert (ExpectedRowErrors(catalog, rows, i))[|ExpectedRowErrors(catalog, rows, i)| - 1] == DuplicateRow;
  }

  /** A repeated row among the first `n` puts a duplicate message in the formset errors. */
  lemma {:induction false} DuplicateMessageAt(catalog: set<nat>, rows: seq<ItemInput>, i: nat, n: nat)
    requires i < n <= |rows| && DuplicateAt(catalog, rows, i)
    ensures DuplicateData in DuplicateMessages(catalog, rows, n)
    decreases n
  {
    var prefix := DuplicateMessages(catalog, rows, n - 1);
    if i < n - 1 {
      DuplicateMessageAt(catalog, rows, i, n - 1);
      var k :| 0 <= k < |prefix| && prefix[k] == DuplicateData;
      assert DuplicateMessages(catalog, rows, n)[k] == DuplicateData;
    } else {
      assert DuplicateMessages(catalog, rows, n) == prefix + [DuplicateData];
      assert DuplicateMessages(catalog, rows, n)[|prefix|] == DuplicateData;
    }
  }

  /** A row that was changed makes the count of changed rows positive. */
  lemma {:induction false} ChangedCountPositive(rows: seq<ItemInput>, i: nat)
    requires i < |rows| && !Unchanged(rows[i])
    ensures ChangedCount(rows) >= 1
    decreases |rows|
  {
    if i < |rows| - 1 {
      ChangedCountPositive(rows[..|rows| - 1], i);
    }
  }

  /** No rows at all: the formset asks for at least one. */
  lemma EmptyFormsetRejected(catalog: set<nat>)
    ensures ExpectedFormsetErrors(catalog, []) == [TooFewForms]
    ensures Contains(FormsetMessage(TooFewForms), "at least")
  {
    assert OccursAt(FormsetMessage(TooFewForms), "at least", 14);
  }

  /** One row with quantity 0 fails on that row's quantity. */
  lemma ZeroQuantityRejected(catalog: set<nat>, s: nat)
    requires s in catalog
    ensures ExpectedRowErrors(catalog, [ItemInput(Some(s), Some(0))], 0) == [QuantityBelowMinimum]
    ensures Contains(RowMessage(QuantityBelowMinimum), "Ensure this value is greater than or equal to 1")
  {
    assert OccursAt(RowMessage(QuantityBelowMinimum), "Ensure this value is greater than or equal to 1", 0);
  }

  /**
   * A negative quantity fails the form field's own bound of 0, so the model's
   * bound of 1 is never checked on it.
   */
  lemma NegativeQuantityRejected(catalog: set<nat>, s: nat, q: int)
    requires s in catalog && q < 0
    ensures ExpectedRowErrors(catalog, [ItemInput(Some(s), Some(q))], 0) == [QuantityNegative]
    ensures Contains(RowMessage(QuantityNegative), "Ensure this value is greater than or equal to 0")
  {
    assert OccursAt(RowMessage(QuantityNegative), "Ensure this value is greater than or equal to 0", 0);
  }

  /** Two rows with distinct services and positive quantities pass. */
  lemma DistinctServicesAccepted(catalog: set<nat>, s1: nat, s2: nat)
    requires s1 in catalog && s2 in catalog && s1 != s2
    ensures ItemsAcceptable(catalog, [ItemInput(Some(s1), Some(2)), ItemInput(Some(s2), Some(1))])
  {
    var rows := [ItemInput(Some(s1), Some(2)), ItemInput(Some(s2), Some(1))];
    assert rows[..1][..0] == [];
    assert rows[..1] == [rows[0]];
  }

  /** The same service twice: the second row carries a "duplicate" error. */
  lemma SameServiceTwiceRejected(catalog: set<nat>, s: nat)
    requires s in catalog
    ensures DuplicateRow in ExpectedRowErrors(catalog, [ItemInput(Some(s), Some(1)), ItemInput(Some(s), Some(1))], 1)
  {
    var rows := [ItemInput(Some(s), Some(1)), ItemInput(Some(s), Some(1))];
    DuplicateOnLaterRow(catalog, rows, 0, 1);
  }

  /** The same service three times: both repeats are flagged, each with its own formset message. */
  lemma SameServiceThriceRejected(catalog: set<nat>, s: nat)
    requires s in catalog
    ensures ExpectedFormsetErrors(catalog, [ItemInput(Some(s), Some(1)), ItemInput(Some(s), Some(1)), ItemInput(Some(s), Some(1))])
            == [DuplicateData, DuplicateData]
  {
    var rows := [ItemInput(Some(s), Some(1)), ItemInput(Some(s), Some(1)), ItemInput(Some(s), Some(1))];
    assert Participates(catalog, rows, 0) && Participates(catalog, rows, 1) && Participates(catalog, rows, 2);
    assert !DuplicateAt(catalog, rows, 0);
    assert DuplicateAt(catalog, rows, 1);
    assert DuplicateAt(catalog, rows, 2);
    ChangedCountPositive(rows, 0);
    assert DuplicateMessages(catalog, rows, 1) == [];
    assert DuplicateMessages(catalog, rows, 2) == [DuplicateData];
    assert DuplicateMessages(catalog, rows, 3) == [DuplicateData] + [DuplicateData];
  }

  /** The duplicate error on a row speaks of a duplicate. */
  lemma DuplicateMessage()
    ensures Contains(RowMessage(DuplicateRow), "duplicate")
  {
    var m := RowMessage(DuplicateRow);
    assert m == "Please correct the duplicate values below.";
    assert m[19..28] == "duplicate" by {
      forall k | 0 <= k < 9 ensures m[19..28][k] == "duplicate"[k] {
        assert m[19..28][k] == m[19 + k];
      }
    }
    assert OccursAt(m, "duplicate", 19);
  }
}
