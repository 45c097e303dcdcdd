/**
 * The order and pricing domain of the cleaning service: the catalog and
 * promo-code records, the phone-number validator, the pricing of an order,
 * and the two records whose `save` rewrites a field before it is stored: an
 * order, whose cached total is recomputed, and an order item, whose unit price
 * is frozen from the catalog the first time it is stored.
 *
 * Money is exact decimal arithmetic, modelled as `real`. A primary key is a
 * `nat` with 0 standing for "not yet stored" (Python's `not self.pk`).
 */
module CleaningModels {
  import opened Wrappers
  import opened Regex

  // ---------------------------------------------------------------------------
  // Phone numbers: RegexValidator(r"^\+375(:?44|29|33)\d{7}$")
  // ---------------------------------------------------------------------------

  /**
   * `(:?44|29|33)` as written: alternation binds loosest, so the optional `:`
   * belongs to the `44` branch only.
   */
  const OperatorGroup: Re := Group(Alt(Cat(Opt(Chars(":")), Chars("44")), Alt(Chars("29"), Chars("33"))))

  /** `(?:44|29|33)`, the non-capturing group the pattern evidently means. */
  const IntendedOperatorGroup: Re := Group(Alt(Chars("44"), Alt(Chars("29"), Chars("33"))))

  /** `\+375`, then the operator group, then `\d{7}`. */
  function NumberPattern(group: Re): Re
  {
    Cat(Chars("+375"), Cat(group, Rep(Digit, 7)))
  }

  /** The validator as written: Python's `re.search` with `^\+375(:?44|29|33)\d{7}$`. */
  predicate PhoneNumberValidator(s: string)
  {
    SearchAnchored(NumberPattern(OperatorGroup), s)
  }

  /** The validator with the group written `(?:44|29|33)`. */
  predicate IntendedPhoneNumberValidator(s: string)
  {
    SearchAnchored(NumberPattern(IntendedOperatorGroup), s)
  }

  /** The operator codes the pattern as written lets through after the country code. */
  predicate OperatorCode(c: string)
  {
    c == ":44" || c == "44" || c == "29" || c == "33"
  }

  /** The three operator codes of Belarusian mobile numbers the pattern names. */
  predicate IntendedOperatorCode(c: string)
  {
    c == "44" || c == "29" || c == "33"
  }

  /** `+375`, something, then seven digits. */
  predicate NumberFrame(t: string)
  {
    |t| >= 11 && t[..4] == "+375" && AllDigits(t[|t| - 7..])
  }

  /** What stands between the country code and the last seven characters. */
  function OperatorPart(t: string): string
    requires |t| >= 11
  {
    t[4..|t| - 7]
  }

  /** A phone number as the pattern as written has it. */
  predicate PhoneCore(t: string)
  {
    NumberFrame(t) && OperatorCode(OperatorPart(t))
  }

  /** A phone number as the intended pattern has it. */
  predicate IntendedPhoneCore(t: string)
  {
    NumberFrame(t) && IntendedOperatorCode(OperatorPart(t))
  }

  /** A phone number, possibly followed by one newline (which `$` lets through). */
  predicate PhoneShape(s: string)
  {
    PhoneCore(s) || (|s| > 0 && s[|s| - 1] == '\n' && PhoneCore(s[..|s| - 1]))
  }

  predicate IntendedPhoneShape(s: string)
  {
    IntendedPhoneCore(s) || (|s| > 0 && s[|s| - 1] == '\n' && IntendedPhoneCore(s[..|s| - 1]))
  }

  /** `:?44` matches `:44` and `44`. */
  lemma OptionalColonMatches(c: string)
    ensures Matches(Cat(Opt(Chars(":")), Chars("44")), c) <==> c == ":44" || c == "44"
  {
    CharsFixedLength("44");
    CatFixedRight(Opt(Chars(":")), Chars("44"), 2, c);
    if |c| >= 2 && (c[..|c| - 2] == [] || c[..|c| - 2] == ":") && c[|c| - 2..] == "44" {
      assert c == c[..|c| - 2] + c[|c| - 2..];
    }
    if c == ":44" {
      assert c[..|c| - 2] == ":";
    }
  }

  lemma OperatorGroupMatches(c: string)
    ensures Matches(OperatorGroup, c) <==> OperatorCode(c)
  {
    OptionalColonMatches(c);
  }

  lemma IntendedOperatorGroupMatches(c: string)
    ensures Matches(IntendedOperatorGroup, c) <==> IntendedOperatorCode(c)
  {
  }

  /** A group followed by `\d{n}`: the group takes all but the last `n` characters. */
  lemma GroupThenDigits(group: Re, n: nat, u: string)
    ensures Matches(Cat(group, Rep(Digit, n)), u) <==>
      |u| >= n && Matches(group, u[..|u| - n]) && AllDigits(u[|u| - n..])
  {
    RepDigitsFixedLength(n);
    CatFixedRight(group, Rep(Digit, n), n, u);
    if |u| >= n {
      RepDigits(n, u[|u| - n..]);
    }
  }

  /** A number pattern matches `+375`, a string its group matches, and seven digits. */
  lemma NumberPatternMatches(group: Re, t: string)
    ensures Matches(NumberPattern(group), t) <==> NumberFrame(t) && Matches(group, OperatorPart(t))
  {
    CharsFixedLength("+375");
    CatFixedLeft(Chars("+375"), Cat(group, Rep(Digit, 7)), 4, t);
    if |t| >= 4 {
      var rest := t[4..];
      GroupThenDigits(group, 7, rest);
      if |rest| >= 7 {
        assert rest[..|rest| - 7] == t[4..|t| - 7];
        assert rest[|rest| - 7..] == t[|t| - 7..];
      }
    }
  }

  /** The validator accepts exactly the phone numbers, with at most one trailing newline. */
  lemma PhoneValidatorAccepts(s: string)
    ensures PhoneNumberValidator(s) <==> PhoneShape(s)
  {
    NumberPatternMatches(OperatorGroup, s);
    if |s| >= 11 {
      OperatorGroupMatches(OperatorPart(s));
    }
    if |s| > 0 {
      var t := s[..|s| - 1];
      NumberPatternMatches(OperatorGroup, t);
      if |t| >= 11 {
        OperatorGroupMatches(OperatorPart(t));
      }
    }
  }

  /** The intended validator accepts exactly `+375`, 44, 29 or 33, and seven digits. */
  lemma IntendedPhoneValidatorAccepts(s: string)
    ensures IntendedPhoneNumberValidator(s) <==> IntendedPhoneShape(s)
  {
    NumberPatternMatches(IntendedOperatorGroup, s);
    if |s| >= 11 {
      IntendedOperatorGroupMatches(OperatorPart(s));
    }
    if |s| > 0 {
      var t := s[..|s| - 1];
      NumberPatternMatches(IntendedOperatorGroup, t);
      if |t| >= 11 {
        IntendedOperatorGroupMatches(OperatorPart(t));
      }
    }
  }

  /** A number of the intended form is one of the written form; the converse fails only for `+375:44`. */
  lemma CoresDiffer(t: string)
    ensures IntendedPhoneCore(t) ==> PhoneCore(t)
    ensures PhoneCore(t) && !IntendedPhoneCore(t) ==> |t| >= 14 && t[..7] == "+375:44"
  {
    if PhoneCore(t) && !IntendedPhoneCore(t) {
      assert OperatorPart(t) == ":44";
      assert t[..7] == t[..4] + OperatorPart(t)[..3];
    }
  }

  /**
   * The two validators disagree on one family of strings only: the written
   * pattern also takes `+375:44` followed by seven digits.
   */
  lemma ValidatorsDiffer(s: string)
    ensures IntendedPhoneNumberValidator(s) ==> PhoneNumberValidator(s)
    ensures PhoneNumberValidator(s) && !IntendedPhoneNumberValidator(s) ==>
      |s| >= 14 && s[..7] == "+375:44"
  {
    PhoneValidatorAccepts(s);
    IntendedPhoneValidatorAccepts(s);
    CoresDiffer(s);
    if |s| > 0 {
      var t := s[..|s| - 1];
      CoresDiffer(t);
      if |t| >= 7 {
        assert s[..7] == t[..7];
      }
    }
  }

  /** A number with the stray colon: accepted as written, refused as intended. */
  lemma ColonNumberDiscrepancy()
    ensures PhoneNumberValidator("+375:441234567")
    ensures !IntendedPhoneNumberValidator("+375:441234567")
  {
    PhoneValidatorAccepts("+375:441234567");
    IntendedPhoneValidatorAccepts("+375:441234567");
    assert OperatorPart("+375:441234567") == ":44";
    assert "+375:441234567"[13] != '\n';
  }

  /** A phone number has 13 characters, or 14 in the `:44` form. */
  lemma PhoneCoreLength(t: string)
    requires PhoneCore(t)
    ensures |t| == 13 || (|t| == 14 && t[..7] == "+375:44")
  {
    if |t| == 14 {
      assert t[..7] == t[..4] + t[4..7];
    }
  }

  /** `+375`, an operator code and seven digits is accepted, with or without one trailing newline. */
  lemma PhoneNumberAccepted(code: string, digits: string)
    requires OperatorCode(code) && |digits| == 7 && AllDigits(digits)
    ensures PhoneNumberValidator("+375" + code + digits)
    ensures PhoneNumberValidator("+375" + code + digits + "\n")
  {
    var t := "+375" + code + digits;
    assert t[..4] == "+375";
    assert OperatorPart(t) == code;
    assert t[|t| - 7..] == digits;
    PhoneValidatorAccepts(t);
    var u := t + "\n";
    assert u[..|u| - 1] == t;
    PhoneValidatorAccepts(u);
  }

  /** No string of length 12 is accepted: the operator part would be a single character. */
  lemma LengthTwelveRejected(s: string)
    requires |s| == 12
    ensures !PhoneNumberValidator(s)
  {
    PhoneValidatorAccepts(s);
    assert |OperatorPart(s)| == 1;
  }

  /** A string that does not end in a newline and has no operator code in place is refused. */
  lemma WrongCodeRejected(s: string)
    requires |s| >= 11 && s[|s| - 1] != '\n' && !OperatorCode(OperatorPart(s))
    ensures !PhoneNumberValidator(s)
  {
    PhoneValidatorAccepts(s);
  }

  /** Only one trailing newline is let through. */
  lemma DoubleNewlineRejected(s: string)
    requires |s| >= 2 && s[|s| - 1] == '\n' && s[|s| - 2] == '\n'
    ensures !PhoneNumberValidator(s)
  {
    PhoneValidatorAccepts(s);
    if |s| >= 7 {
      assert s[|s| - 7..][6] == '\n';
      var t := s[..|s| - 1];
      if |t| >= 7 {
        assert t[|t| - 7..][6] == '\n';
      }
    }
  }

  /** `+375`, an operator code and the digits 1234567, as the test records use them. */
  lemma TestNumberAccepted(code: string, s: string)
    requires OperatorCode(code) && s == "+375" + code + "1234567"
    ensures PhoneNumberValidator(s) && PhoneNumberValidator(s + "\n")
  {
    assert AllDigits("1234567");
    PhoneNumberAccepted(code, "1234567");
  }

  /** The numbers used by the client and staff records in the tests, and the `:44` and newline forms. */
  lemma PhoneAccepted(s: string)
    requires s == "+375291234567" || s == "+375441234567" || s == "+375:441234567" || s == "+375331234567\n"
    ensures PhoneNumberValidator(s)
  {
    if s == "+375291234567" {
      TestNumberAccepted("29", s);
    } else if s == "+375441234567" {
      TestNumberAccepted("44", s);
    } else if s == "+375:441234567" {
      TestNumberAccepted(":44", s);
    } else {
      TestNumberAccepted("33", "+375331234567");
      assert s == "+375331234567" + "\n";
    }
  }

  /** A wrong operator code, a digit short, two newlines, a colon before `29`: all refused. */
  lemma PhoneRejected(s: string)
    requires s == "+375301234567" || s == "+37529123456" || s == "+375291234567\n\n" || s == "+375:291234567"
    ensures !PhoneNumberValidator(s)
  {
    if s == "+375301234567" {
      assert OperatorPart(s) == "30";
      WrongCodeRejected(s);
    } else if s == "+37529123456" {
      LengthTwelveRejected(s);
    } else if s == "+375291234567\n\n" {
      DoubleNewlineRejected(s);
    } else {
      assert OperatorPart(s) == ":29";
      WrongCodeRejected(s);
    }
  }

  // ---------------------------------------------------------------------------
  // Catalog and promo codes
  // ---------------------------------------------------------------------------

  datatype Service = Service(id: nat, price: real, isActive: bool)

  /** The stored values of `PromoCode.DiscountType`. */
  const PERCENTAGE: string := "PERCENT"
  const FIXED: string := "FIXED"

  /**
   * A promo code. The discount type is the stored text: pricing treats every
   * value other than `FIXED` as a percentage. Times are opaque instants.
   */
  datatype PromoCode = PromoCode(
    id: nat,
    code: string,
    discountType: string,
    value: real,
    validFrom: int,
    validTo: int,
    isActive: bool,
    maxUses: Option<nat>,
    usedCount: nat)

  /** A promo code created with the fields the model gives defaults to left at them. */
  function NewPromoCode(id: nat, code: string, discountType: string, value: real, validFrom: int, validTo: int): (p: PromoCode)
    ensures p.isActive && p.maxUses == None && p.usedCount == 0
    ensures p.id == id && p.code == code && p.discountType == discountType && p.value == value
    ensures p.validFrom == validFrom && p.validTo == validTo
  {
    PromoCode(id, code, discountType, value, validFrom, validTo, true, None, 0)
  }

  // ---------------------------------------------------------------------------
  // Pricing
  // ---------------------------------------------------------------------------

  /** A stored order item: its key, its service, how many, and the frozen unit price. */
  datatype ItemRow = ItemRow(pk: nat, service: nat, quantity: nat, priceAtOrder: real)

  function LineTotal(row: ItemRow): real
  {
    row.priceAtOrder * (row.quantity as real)
  }

  /** Σ price_at_order × quantity, added up from the first item to the last. */
  function Subtotal(rows: seq<ItemRow>): real
  {
    if rows == [] then 0.0 else Subtotal(rows[..|rows| - 1]) + LineTotal(rows[|rows| - 1])
  }

  /** The subtotal after the promo code, before clamping. */
  function ApplyPromo(subtotal: real, promo: Option<PromoCode>): real
  {
    match promo
    case None => subtotal
    case Some(p) =>
      if p.discountType == FIXED then subtotal - p.value
      else subtotal - subtotal * p.value / 100.0
  }

  function Max(a: real, b: real): real
  {
    if a >= b then a else b
  }

  /**
   * `Order.calculate_total`: 0 for an order that has no primary key; otherwise
   * the subtotal of its items, less the promo discount, and never below 0.
   */
  function OrderTotal(pk: nat, rows: seq<ItemRow>, promo: Option<PromoCode>): (total: real)
    ensures total >= 0.0
  {
    if pk == 0 then 0.0 else Max(ApplyPromo(Subtotal(rows), promo), 0.0)
  }

  predicate NonNegativePrices(rows: seq<ItemRow>)
  {
    forall i :: 0 <= i < |rows| ==> rows[i].priceAtOrder >= 0.0
  }

  /** An order not yet stored totals 0, whatever its items and promo code. */
  lemma UnsavedOrderTotal(rows: seq<ItemRow>, promo: Option<PromoCode>)
    ensures OrderTotal(0, rows, promo) == 0.0
  {
  }

  lemma {:induction false} SubtotalAppend(a: seq<ItemRow>, b: seq<ItemRow>)
    ensures Subtotal(a + b) == Subtotal(a) + Subtotal(b)
    decreases |b|
  {
    if b == [] {
      assert a + b == a;
    } else {
      var b' := b[..|b| - 1];
      assert (a + b)[..|a + b| - 1] == a + b';
      assert (a + b)[|a + b| - 1] == b[|b| - 1];
      SubtotalAppend(a, b');
    }
  }

  /** Taking one item out of the list takes its line total out of the subtotal. */
  lemma {:induction false} SubtotalRemove(b: seq<ItemRow>, k: nat)
    requires k < |b|
    ensures Subtotal(b) == Subtotal(b[..k] + b[k + 1..]) + LineTotal(b[k])
    decreases |b|
  {
    var init := b[..|b| - 1];
    var rest := b[..k] + b[k + 1..];
    if k == |b| - 1 {
      assert rest == init;
    } else {
      var rest' := init[..k] + init[k + 1..];
      SubtotalRemove(init, k);
      assert rest[..|rest| - 1] == rest';
      assert rest[|rest| - 1] == b[|b| - 1];
      assert init[k] == b[k];
    }
  }

  lemma MultisetRemove(b: seq<ItemRow>, k: nat)
    requires k < |b|
    ensures multiset(b[..k] + b[k + 1..]) == multiset(b) - multiset{b[k]}
  {
    assert b == b[..k] + [b[k]] + b[k + 1..];
  }

  /** The subtotal does not depend on the order in which the items are stored. */
  lemma {:induction false} SubtotalPermutation(a: seq<ItemRow>, b: seq<ItemRow>)
    requires multiset(a) == multiset(b)
    ensures Subtotal(a) == Subtotal(b)
    decreases |a|
  {
    if a == [] {
      assert |b| == |multiset(b)| == 0;
    } else {
      var x := a[|a| - 1];
      var a' := a[..|a| - 1];
      assert a == a' + [x];
      assert x in multiset(b);
      var k :| 0 <= k < |b| && b[k] == x;
      MultisetRemove(b, k);
      assert multiset(a') == multiset(a) - multiset{x};
      SubtotalPermutation(a', b[..k] + b[k + 1..]);
      SubtotalRemove(b, k);
    }
  }

  lemma {:induction false} SubtotalNonNegative(rows: seq<ItemRow>)
    requires NonNegativePrices(rows)
    ensures Subtotal(rows) >= 0.0
    decreases |rows|
  {
    if rows != [] {
      var rows' := rows[..|rows| - 1];
      assert NonNegativePrices(rows') by {
        forall i | 0 <= i < |rows'| ensures rows'[i].priceAtOrder >= 0.0 {
          assert rows'[i] == rows[i];
        }
      }
      SubtotalNonNegative(rows');
    }
  }

  /** Without a promo code a stored order's total is its subtotal (clamped at 0). */
  lemma TotalWithoutPromo(pk: nat, rows: seq<ItemRow>)
    requires pk != 0
    ensures OrderTotal(pk, rows, None) == Max(Subtotal(rows), 0.0)
    ensures NonNegativePrices(rows) ==> OrderTotal(pk, rows, None) == Subtotal(rows)
    ensures rows == [] ==> OrderTotal(pk, rows, None) == 0.0
  {
    if NonNegativePrices(rows) {
      SubtotalNonNegative(rows);
    }
  }

  /** A FIXED code takes its value off the subtotal, down to 0 at most. */
  lemma TotalWithFixedPromo(pk: nat, rows: seq<ItemRow>, p: PromoCode)
    requires pk != 0 && p.discountType == FIXED
    ensures OrderTotal(pk, rows, Some(p)) == Max(Subtotal(rows) - p.value, 0.0)
  {
  }

  /** Any other code takes value percent of the subtotal off it, down to 0 at most. */
  lemma TotalWithPercentagePromo(pk: nat, rows: seq<ItemRow>, p: PromoCode)
    requires pk != 0 && p.discountType != FIXED
    ensures OrderTotal(pk, rows, Some(p)) == Max(Subtotal(rows) - Subtotal(rows) * p.value / 100.0, 0.0)
  {
    assert ApplyPromo(Subtotal(rows), Some(p)) == Subtotal(rows) - Subtotal(rows) * p.value / 100.0;
  }

  /** With non-negative prices and discount values a promo code never raises the total. */
  lemma PromoNeverRaisesTotal(pk: nat, rows: seq<ItemRow>, p: PromoCode)
    requires NonNegativePrices(rows) && p.value >= 0.0
    ensures OrderTotal(pk, rows, Some(p)) <= OrderTotal(pk, rows, None)
  {
    SubtotalNonNegative(rows);
    var s := Subtotal(rows);
    if p.discountType != FIXED {
      assert s * p.value >= 0.0;
    }
  }

  /** The amounts of the model tests: 100 × 2 without a code, and 100 with a FIXED 50 code. */
  lemma PricingExamples()
    ensures OrderTotal(1, [ItemRow(1, 1, 2, 100.0)], None) == 200.0
    ensures OrderTotal(1, [ItemRow(1, 1, 1, 100.0)], Some(NewPromoCode(1, "FIXED50", FIXED, 50.0, 0, 1))) == 50.0
  {
    assert [ItemRow(1, 1, 2, 100.0)][..0] == [];
    assert [ItemRow(1, 1, 1, 100.0)][..0] == [];
  }

  /** A FIXED code larger than the subtotal is clamped to 0; a percentage code takes its share. */
  lemma PromoExamples()
    ensures OrderTotal(1, [ItemRow(1, 1, 1, 30.0)], Some(NewPromoCode(1, "FIXED50", FIXED, 50.0, 0, 1))) == 0.0
    ensures OrderTotal(1, [ItemRow(1, 1, 1, 200.0)], Some(NewPromoCode(2, "P20", PERCENTAGE, 20.0, 0, 1))) == 160.0
  {
    assert [ItemRow(1, 1, 1, 30.0)][..0] == [];
    assert [ItemRow(1, 1, 1, 200.0)][..0] == [];
  }

  /**
   * A stored order without items totals 0, unless its promo code is FIXED with
   * a negative value, which no validator of the model rules out.
   */
  predicate EmptyOrderTotalsZero(promo: Option<PromoCode>)
  {
    !(promo.Some? && promo.value.discountType == FIXED && promo.value.value < 0.0)
  }

  lemma EmptyOrderTotal(pk: nat, promo: Option<PromoCode>)
    requires pk != 0
    ensures OrderTotal(pk, [], promo) == 0.0 <==> EmptyOrderTotalsZero(promo)
  {
  }

  // ---------------------------------------------------------------------------
  // Stored item rows of one order
  // ---------------------------------------------------------------------------

  /**
   * The item rows of one order as the database keeps them: positive, distinct
   * keys, and no service twice (unique together: order, service).
   */
  predicate ItemsWellFormed(rows: seq<ItemRow>)
  {
    (forall i :: 0 <= i < |rows| ==> rows[i].pk > 0)
    && (forall i, j :: 0 <= i < j < |rows| ==> rows[i].pk != rows[j].pk && rows[i].service != rows[j].service)
  }

  /** The position of the row keyed `pk`, or -1 when there is none. */
  function FindRow(rows: seq<ItemRow>, pk: nat): (k: int)
    ensures -1 <= k < |rows|
    ensures k >= 0 ==> rows[k].pk == pk
    ensures k < 0 <==> forall j :: 0 <= j < |rows| ==> rows[j].pk != pk
  {
    if rows == [] then -1
    else if rows[|rows| - 1].pk == pk then |rows| - 1
    else FindRow(rows[..|rows| - 1], pk)
  }

  predicate ServiceTakenByOther(rows: seq<ItemRow>, row: ItemRow)
  {
    exists j :: 0 <= j < |rows| && rows[j].pk != row.pk && rows[j].service == row.service
  }

  /**
   * Writing one item row: an update of the row with the same key when there is
   * one and an insert otherwise, refused when another row already holds the
   * same service.
   */
  function StoreRow(rows: seq<ItemRow>, row: ItemRow): (r: Result<seq<ItemRow>, SaveError>)
    ensures r.Err? <==> ServiceTakenByOther(rows, row)
    ensures r.Err? ==> r.error == UniqueViolation
    ensures r.Ok? ==> row in r.value
    ensures r.Ok? ==> forall i :: 0 <= i < |rows| && rows[i].pk != row.pk ==> rows[i] in r.value
    ensures r.Ok? ==> forall x :: x in r.value ==> x == row || x in rows
  {
    if ServiceTakenByOther(rows, row) then Err(UniqueViolation)
    else
      var k := FindRow(rows, row.pk);
      var rows' := if k >= 0 then rows[k := row] else rows + [row];
      assert rows'[if k >= 0 then k else |rows|] == row;
      assert forall i :: 0 <= i < |rows| && i != k ==> rows'[i] == rows[i];
      Ok(rows')
  }

  /** Storing a row keeps the stored rows well formed. */
  lemma StoreRowKeepsWellFormed(rows: seq<ItemRow>, row: ItemRow)
    requires ItemsWellFormed(rows) && row.pk > 0
    ensures StoreRow(rows, row).Ok? ==> ItemsWellFormed(StoreRow(rows, row).value)
  {
    if !ServiceTakenByOther(rows, row) {
      var k := FindRow(rows, row.pk);
      var rows' := StoreRow(rows, row).value;
      forall i, j | 0 <= i < j < |rows'|
        ensures rows'[i].pk != rows'[j].pk && rows'[i].service != rows'[j].service
      {
        if k >= 0 {
          if i == k {
            assert rows[j].pk != row.pk;
          } else if j == k {
            assert rows[i].pk != row.pk;
          }
        } else if j == |rows| {
          assert rows'[j] == row;
        }
      }
    }
  }

  /** The first item stored for an order is inserted as it is. */
  lemma StoreFirstRow(row: ItemRow)
    ensures StoreRow([], row) == Ok([row])
  {
    assert !ServiceTakenByOther([], row);
    assert FindRow([], row.pk) == -1;
    assert [] + [row] == [row];
  }

  // ---------------------------------------------------------------------------
  // Orders
  // ---------------------------------------------------------------------------

  datatype OrderStatus = Pending | Scheduled | InProgress | Completed | Cancelled

  datatype PaymentStatus = Unpaid | Paid

  /** The stored columns of an order that `save(update_fields=...)` can name. */
  datatype OrderField = ClientField | AddressField | WorkDateField | StatusField
                      | PaymentStatusField | TotalAmountField | PromoCodeField

  /** An order as its database row holds it. */
  datatype OrderRow = OrderRow(
    client: nat,
    address: string,
    workDate: int,
    status: OrderStatus,
    paymentStatus: PaymentStatus,
    totalAmount: real,
    promo: Option<PromoCode>)

  datatype SaveError =
    | UpdateWithoutPrimaryKey // save(update_fields=...) on a record never stored
    | UnsavedRelatedOrder     // an item saved before its order
    | NullPrice               // an item stored without a unit price
    | UniqueViolation         // a second item for the same service in one order

  /** `row` with the columns in `fields` taken from `current`. */
  function UpdateRow(row: OrderRow, current: OrderRow, fields: set<OrderField>): (r: OrderRow)
    ensures r.client == (if ClientField in fields then current else row).client
    ensures r.address == (if AddressField in fields then current else row).address
    ensures r.workDate == (if WorkDateField in fields then current else row).workDate
    ensures r.status == (if StatusField in fields then current else row).status
    ensures r.paymentStatus == (if PaymentStatusField in fields then current else row).paymentStatus
    ensures r.totalAmount == (if TotalAmountField in fields then current else row).totalAmount
    ensures r.promo == (if PromoCodeField in fields then current else row).promo
  {
    OrderRow(
      if ClientField in fields then current.client else row.client,
      if AddressField in fields then current.address else row.address,
      if WorkDateField in fields then current.workDate else row.workDate,
      if StatusField in fields then current.status else row.status,
      if PaymentStatusField in fields then current.paymentStatus else row.paymentStatus,
      if TotalAmountField in fields then current.totalAmount else row.totalAmount,
      if PromoCodeField in fields then current.promo else row.promo)
  }

  /** Updating only the total leaves every other stored column as it was. */
  lemma UpdateTotalOnly(row: OrderRow, current: OrderRow)
    ensures UpdateRow(row, current, {TotalAmountField}) == row.(totalAmount := current.totalAmount)
  {
  }

  /**
   * An order. `items` holds the item rows stored for this order (what
   * `self.items.all()` reads) and `stored` the order's own database row.
   */
  class Order {
    var pk: nat
    var client: nat
    var address: string
    var workDate: int
    var status: OrderStatus
    var paymentStatus: PaymentStatus
    var totalAmount: real
    var promo: Option<PromoCode>
    var items: seq<ItemRow>
    var stored: Option<OrderRow>

    /** An order has a database row exactly when it has a key, and items only then. */
    ghost predicate Valid()
      reads this
    {
      (pk == 0 <==> stored == None)
      && (pk == 0 ==> items == [])
      && ItemsWellFormed(items)
    }

    /** The columns of the order as they stand in memory. */
    function Current(): OrderRow
      reads this
    {
      OrderRow(client, address, workDate, status, paymentStatus, totalAmount, promo)
    }

    /** `calculate_total` on the order as it stands. */
    function CalculateTotal(): (total: real)
      reads this
      ensures total >= 0.0
      ensures pk == 0 ==> total == 0.0
    {
      OrderTotal(pk, items, promo)
    }

    /** A new, unsaved order with the model's defaults. */
    constructor (client: nat, address: string, workDate: int, promo: Option<PromoCode>)
      ensures Valid()
      ensures this.client == client && this.address == address && this.workDate == workDate
      ensures this.promo == promo
      ensures pk == 0 && stored == None && items == []
      ensures status == Pending && paymentStatus == Unpaid && totalAmount == 0.0
    {
      pk := 0;
      this.client := client;
      this.address := address;
      this.workDate := workDate;
      status := Pending;
      paymentStatus := Unpaid;
      totalAmount := 0.0;
      this.promo := promo;
      items := [];
      stored := None;
    }

    /**
     * `save()`: recompute the cached total, then store every column; an order
     * without a key is inserted and receives `newPk` from the database.
     */
    method Save(newPk: nat)
      requires Valid() && newPk > 0
      modifies this
      ensures Valid()
      ensures totalAmount == old(CalculateTotal())
      ensures old(pk) != 0 || EmptyOrderTotalsZero(promo) ==> totalAmount == CalculateTotal()
      ensures pk == (if old(pk) == 0 then newPk else old(pk))
      ensures stored == Some(Current())
      ensures client == old(client) && address == old(address) && workDate == old(workDate)
      ensures status == old(status) && paymentStatus == old(paymentStatus)
      ensures promo == old(promo) && items == old(items)
    {
      totalAmount := CalculateTotal();
      if pk == 0 {
        pk := newPk;
        EmptyOrderTotal(pk, promo);
      }
      stored := Some(Current());
    }

    /**
     * `save(update_fields=fields)`: recompute the cached total, then store only
     * the named columns. No columns means no write; a never-stored order
     * cannot be updated.
     */
    method SaveFields(fields: set<OrderField>) returns (res: Outcome<SaveError>)
      requires Valid()
      modifies this
      ensures Valid()
      ensures totalAmount == old(CalculateTotal()) && totalAmount == CalculateTotal()
      ensures res == (if fields != {} && old(pk) == 0 then Fail(UpdateWithoutPrimaryKey) else Pass)
      ensures stored == (if fields != {} && old(pk) != 0 then Some(UpdateRow(old(stored).value, Current(), fields))
                         else old(stored))
      ensures pk == old(pk) && client == old(client) && address == old(address) && workDate == old(workDate)
      ensures status == old(status) && paymentStatus == old(paymentStatus)
      ensures promo == old(promo) && items == old(items)
    {
      totalAmount := CalculateTotal();
      if fields == {} {
        return Pass;
      }
      if pk == 0 {
        return Fail(UpdateWithoutPrimaryKey);
      }
      stored := Some(UpdateRow(stored.value, Current(), fields));
      res := Pass;
    }

    /** `save_calculate_total`: recompute the total and store that column alone. */
    method SaveCalculateTotal() returns (res: Outcome<SaveError>)
      requires Valid()
      modifies this
      ensures Valid()
      ensures totalAmount == CalculateTotal()
      ensures old(pk) != 0 ==> res == Pass && stored == Some(old(stored).value.(totalAmount := totalAmount))
      ensures old(pk) == 0 ==> res == Fail(UpdateWithoutPrimaryKey) && stored == old(stored)
      ensures pk == old(pk) && client == old(client) && address == old(address) && workDate == old(workDate)
      ensures status == old(status) && paymentStatus == old(paymentStatus)
      ensures promo == old(promo) && items == old(items)
    {
      var total := CalculateTotal();
      totalAmount := total;
      res := SaveFields({TotalAmountField});
      if old(pk) != 0 {
        UpdateTotalOnly(old(stored).value, Current());
      }
    }
  }

  /**
   * One step of the admin "recalculate totals" action: the value of
   * `calculate_total()` is discarded, and `save(update_fields=['total_amount'])`
   * recomputes it anyway, so the order ends as `save_calculate_total` leaves it.
   */
  method RecalculateTotal(order: Order) returns (res: Outcome<SaveError>)
    requires order.Valid()
    modifies order
    ensures order.Valid()
    ensures order.totalAmount == order.CalculateTotal()
    ensures old(order.pk) != 0 ==>
      res == Pass && order.stored == Some(old(order.stored).value.(totalAmount := order.totalAmount))
    ensures old(order.pk) == 0 ==> res == Fail(UpdateWithoutPrimaryKey) && order.stored == old(order.stored)
    ensures order.pk == old(order.pk) && order.promo == old(order.promo) && order.items == old(order.items)
    ensures order.Current() == old(order.Current()).(totalAmount := order.totalAmount)
  {
    var _ := order.CalculateTotal();
    res := order.SaveFields({TotalAmountField});
    if old(order.pk) != 0 {
      UpdateTotalOnly(old(order.stored).value, order.Current());
    }
  }

  // ---------------------------------------------------------------------------
  // Order items
  // ---------------------------------------------------------------------------

  /** Python truthiness of a decimal that may be unset: neither None nor 0. */
  predicate IsSet(price: Option<real>)
  {
    price.Some? && price.value != 0.0
  }

  class OrderItem {
    var pk: nat
    const order: Order
    var service: Service
    var quantity: nat
    var priceAtOrder: Option<real>

    /** A new, unsaved item; the quantity defaults to 1. */
    constructor (order: Order, service: Service, quantity: nat := 1, priceAtOrder: Option<real> := None)
      ensures this.order == order && this.service == service && this.quantity == quantity
      ensures this.priceAtOrder == priceAtOrder && pk == 0
    {
      pk := 0;
      this.order := order;
      this.service := service;
      this.quantity := quantity;
      this.priceAtOrder := priceAtOrder;
    }

    /**
     * `save()`: an item never stored whose unit price is unset or zero takes
     * the service's current price; then the row is written into the order's
     * items (a new item receives `newPk`). The order's cached total is not
     * touched.
     */
    method Save(newPk: nat) returns (res: Outcome<SaveError>)
      requires order.Valid() && newPk > 0
      requires forall i :: 0 <= i < |order.items| ==> order.items[i].pk != newPk
      modifies this, order`items
      ensures order.Valid()
      ensures old(pk) == 0 && !IsSet(old(priceAtOrder)) ==> priceAtOrder == Some(service.price)
      ensures old(pk) != 0 || IsSet(old(priceAtOrder)) ==> priceAtOrder == old(priceAtOrder)
      ensures service == old(service) && quantity == old(quantity)
      ensures res.Pass? <==>
        order.pk != 0 && priceAtOrder.Some?
        && !ServiceTakenByOther(old(order.items), ItemRow(if old(pk) == 0 then newPk else old(pk), service.id, quantity, priceAtOrder.value))
      ensures res.Pass? ==> pk == (if old(pk) == 0 then newPk else old(pk))
      ensures res.Pass? ==> order.items == StoreRow(old(order.items), Row()).value
      ensures res.Fail? ==> pk == old(pk) && order.items == old(order.items)
    {
      if pk == 0 && !IsSet(priceAtOrder) {
        priceAtOrder := Some(service.price);
      }
      if order.pk == 0 {
        return Fail(UnsavedRelatedOrder);
      }
      if priceAtOrder == None {
        return Fail(NullPrice);
      }
      var key := if pk == 0 then newPk else pk;
      var row := ItemRow(key, service.id, quantity, priceAtOrder.value);
      var r := StoreRow(order.items, row);
      if r.Err? {
        return Fail(r.error);
      }
      StoreRowKeepsWellFormed(order.items, row);
      order.items := r.value;
      pk := key;
      res := Pass;
    }

    /** The row this item is stored as. */
    function Row(): ItemRow
      reads this
      requires priceAtOrder.Some?
    {
      ItemRow(pk, service.id, quantity, priceAtOrder.value)
    }
  }

  // ---------------------------------------------------------------------------
  // The model tests, as client code of the classes above
  // ---------------------------------------------------------------------------

  /** Price 100 × quantity 2, then `save_calculate_total`: the stored total is 200. */
  method TotalCalculationScenario() returns (total: real)
    ensures total == 200.0
  {
    var order := new Order(1, "Test Address", 0, None);
    order.Save(1);
    var service := Service(1, 100.0, true);
    var item := new OrderItem(order, service, 2, Some(service.price));
    var r := item.Save(1);
    StoreFirstRow(ItemRow(1, 1, 2, 100.0));
    assert r == Pass;
    assert item.Row() == ItemRow(1, 1, 2, 100.0);
    assert order.items == [ItemRow(1, 1, 2, 100.0)];
    r := order.SaveCalculateTotal();
    PricingExamples();
    total := order.stored.value.totalAmount;
  }

  /** Subtotal 100 with a FIXED 50 code: the stored total is 50. */
  method FixedPromoScenario() returns (total: real)
    ensures total == 50.0
  {
    var promo := NewPromoCode(1, "FIXED50", FIXED, 50.0, 0, 1);
    var order := new Order(1, "Test Address", 0, Some(promo));
    order.Save(1);
    var service := Service(1, 100.0, true);
    var item := new OrderItem(order, service, 1, Some(service.price));
    var r := item.Save(1);
    StoreFirstRow(ItemRow(1, 1, 1, 100.0));
    assert r == Pass;
    assert item.Row() == ItemRow(1, 1, 1, 100.0);
    assert order.items == [ItemRow(1, 1, 1, 100.0)];
    r := order.SaveCalculateTotal();
    PricingExamples();
    total := order.stored.value.totalAmount;
  }

  /** An item created without a price takes the service's price, 100. */
  method FrozenPriceScenario() returns (price: real, quantity: nat)
    ensures price == 100.0 && quantity == 3
  {
    var order := new Order(1, "Test", 0, None);
    order.Save(1);
    var item := new OrderItem(order, Service(1, 100.0, true), 3);
    var r := item.Save(1);
    price := item.priceAtOrder.value;
    quantity := item.quantity;
  }
}
