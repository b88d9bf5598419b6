/**
 * The booking JSON template (`BookingPayloads`). String fields are wrapped in
 * double quotes with no escaping, a null field is the bare word `null`, the
 * price and the deposit flag go in unquoted. The text block's line breaks and
 * indentation are removed, except for one space after each comma; the space
 * after each colon stays. Keys and values keep their order.
 */
module BookingPayloads {
  import opened Wrappers
  import opened JavaText

  /** The arguments of `createBookingPayload`, in order. */
  datatype BookingRequest = BookingRequest(
    firstname: Option<string>,
    lastname: Option<string>,
    totalprice: int,
    depositpaid: bool,
    checkin: Option<string>,
    checkout: Option<string>,
    additionalneeds: Option<string>)

  /** `normaliseString`: null stays null, anything else gains a double quote at each end. */
  function NormaliseString(s: Option<string>): (r: Option<string>)
    ensures r.None? <==> s.None?
    ensures s.Some? ==> && |r.value| == |s.value| + 2
                        && r.value[0] == '"' && r.value[|r.value| - 1] == '"'
                        && r.value[1..|r.value| - 1] == s.value
  {
    match s
    case None => None
    case Some(v) => Some("\"" + v + "\"")
  }

  /** The text a string field contributes: the quoted value, or `null`. */
  function StringValue(s: Option<string>): string {
    Show(NormaliseString(s))
  }

  const Open := "{\"firstname\": "
  const LastnameKey := ", \"lastname\": "
  const TotalpriceKey := ", \"totalprice\": "
  const DepositpaidKey := ", \"depositpaid\": "
  const CheckinKey := ", \"bookingdates\": {\"checkin\": "
  const CheckoutKey := ", \"checkout\": "
  const AdditionalneedsKey := "}, \"additionalneeds\": "
  const Close := "}"

  /** `createBookingPayload`: the template filled in, ending with the closing brace of the JSON object. */
  function CreateBookingPayload(b: BookingRequest): (r: string)
    ensures |r| > 0 && r[|r| - 1] == '}'
  {
    Open + StringValue(b.firstname)
    + LastnameKey + StringValue(b.lastname)
    + TotalpriceKey + IntToString(b.totalprice)
    + DepositpaidKey + BoolToString(b.depositpaid)
    + CheckinKey + StringValue(b.checkin)
    + CheckoutKey + StringValue(b.checkout)
    + AdditionalneedsKey + StringValue(b.additionalneeds)
    + Close
  }

  /* ---------------------------------------------------------------------
   * A reader for the template's output, the partner of the builder: it
   * expects the keys in the template's order and recovers every field.
   * --------------------------------------------------------------------- */

  function ReadLiteral(lit: string, s: string): Option<string> {
    if lit <= s then Some(s[|lit|..]) else None
  }

  /** Position of the first double quote in `s`, or `|s|` if there is none. */
  function QuoteIndex(s: string): (k: nat)
    ensures k <= |s|
    decreases |s|
  {
    if |s| == 0 || s[0] == '"' then 0 else 1 + QuoteIndex(s[1..])
  }

  /** A string value: `null`, or a double quote, text without quotes, and a double quote. */
  function ReadStringValue(s: string): Option<(Option<string>, string)> {
    if "null" <= s then Some((None, s[4..]))
    else if |s| > 0 && s[0] == '"' then
      var k := QuoteIndex(s[1..]);
      if k < |s[1..]| then Some((Some(s[1..][..k]), s[1..][k + 1..])) else None
    else None
  }

  /** Number of leading decimal digits of `s`. */
  function DigitSpan(s: string): (k: nat)
    ensures k <= |s| && AllDigits(s[..k])
    decreases |s|
  {
    if |s| > 0 && IsDigit(s[0]) then
      var k := DigitSpan(s[1..]);
      assert s[..k + 1] == [s[0]] + s[1..][..k];
      1 + k
    else 0
  }

  /** The longest run of leading digits, as a number; at least one digit is needed. */
  function ReadNatural(s: string): Option<(nat, string)> {
    var k := DigitSpan(s);
    if k > 0 then Some((ValueOfDigits(s[..k]), s[k..])) else None
  }

  /** A decimal integer: an optional minus sign and the longest run of digits after it. */
  function ReadInt(s: string): Option<(int, string)> {
    if |s| > 0 && s[0] == '-' then
      match ReadNatural(s[1..])
      case Some((n, r)) => Some((-(n as int), r))
      case None => None
    else
      match ReadNatural(s)
      case Some((n, r)) => Some((n, r))
      case None => None
  }

  function ReadBool(s: string): Option<(bool, string)> {
    if "true" <= s then Some((true, s[4..]))
    else if "false" <= s then Some((false, s[5..]))
    else None
  }

  function ReadStringField(key: string, s: string): Option<(Option<string>, string)> {
    var r :- ReadLiteral(key, s);
    ReadStringValue(r)
  }

  function ReadIntField(key: string, s: string): Option<(int, string)> {
    var r :- ReadLiteral(key, s);
    ReadInt(r)
  }

  function ReadBoolField(key: string, s: string): Option<(bool, string)> {
    var r :- ReadLiteral(key, s);
    ReadBool(r)
  }

  /** Reads a whole payload back into its fields, or `None` if it is not one. */
  function ParseBookingPayload(s: string): Option<BookingRequest> {
    var first :- ReadStringField(Open, s);
    var last :- ReadStringField(LastnameKey, first.1);
    var price :- ReadIntField(TotalpriceKey, last.1);
    var deposit :- ReadBoolField(DepositpaidKey, price.1);
    var checkin :- ReadStringField(CheckinKey, deposit.1);
    var checkout :- ReadStringField(CheckoutKey, checkin.1);
    var needs :- ReadStringField(AdditionalneedsKey, checkout.1);
    if needs.1 == Close then
      Some(BookingRequest(first.0, last.0, price.0, deposit.0, checkin.0, checkout.0, needs.0))
    else None
  }

  predicate QuoteFree(s: Option<string>) {
    s.Some? ==> forall i | 0 <= i < |s.value| :: s.value[i] != '"'
  }

  /** No string field contains a double quote, the one character the template does not escape. */
  predicate Unambiguous(b: BookingRequest) {
    && QuoteFree(b.firstname) && QuoteFree(b.lastname)
    && QuoteFree(b.checkin) && QuoteFree(b.checkout) && QuoteFree(b.additionalneeds)
  }

  lemma ReadLiteralOf(lit: string, rest: string)
    ensures ReadLiteral(lit, lit + rest) == Some(rest)
  {
    assert (lit + rest)[..|lit|] == lit;
    assert (lit + rest)[|lit|..] == rest;
  }

  lemma {:induction false} QuoteIndexOf(x: string, rest: string)
    requires QuoteFree(Some(x))
    ensures QuoteIndex(x + "\"" + rest) == |x|
    decreases |x|
  {
    if |x| > 0 {
      assert (x + "\"" + rest)[1..] == x[1..] + "\"" + rest;
      QuoteIndexOf(x[1..], rest);
    }
  }

  lemma ReadStringValueOf(x: Option<string>, rest: string)
    requires QuoteFree(x)
    ensures ReadStringValue(StringValue(x) + rest) == Some((x, rest))
  {
    var s := StringValue(x) + rest;
    if x.Some? {
      var v := x.value;
      assert s == "\"" + (v + "\"" + rest);
      assert s[0] == '"';
      assert !("null" <= s);
      assert s[1..] == v + "\"" + rest;
      QuoteIndexOf(v, rest);
      assert s[1..][..|v|] == v;
      assert s[1..][|v| + 1..] == rest;
    } else {
      assert s == "null" + rest;
      assert s[4..] == rest;
    }
  }

  lemma {:induction false} DigitSpanOf(d: string, rest: string)
    requires AllDigits(d)
    requires rest == [] || !IsDigit(rest[0])
    ensures DigitSpan(d + rest) == |d|
    decreases |d|
  {
    if |d| > 0 {
      assert (d + rest)[1..] == d[1..] + rest;
      DigitSpanOf(d[1..], rest);
    }
  }

  lemma ReadNaturalOf(d: string, rest: string)
    requires |d| > 0 && AllDigits(d)
    requires rest == [] || !IsDigit(rest[0])
    ensures ReadNatural(d + rest) == Some((ValueOfDigits(d), rest))
  {
    var s := d + rest;
    DigitSpanOf(d, rest);
    assert s[..|d|] == d;
    assert s[|d|..] == rest;
  }

  lemma ReadIntNegated(t: string, n: nat, rest: string)
    requires ReadNatural(t) == Some((n, rest))
    ensures ReadInt("-" + t) == Some((-(n as int), rest))
  {
    assert ("-" + t)[1..] == t;
  }

  lemma ReadIntUnsigned(t: string, n: nat, rest: string)
    requires ReadNatural(t) == Some((n, rest))
    ensures ReadInt(t) == Some((n as int, rest))
  {
  }

  lemma ReadIntOf(i: int, rest: string)
    requires rest == [] || !IsDigit(rest[0])
    ensures ReadInt(IntToString(i) + rest) == Some((i, rest))
  {
    var n: nat := if i < 0 then -i else i;
    var d := DigitsOf(n);
    ValueOfDigitsOf(n);
    ReadNaturalOf(d, rest);
    if i < 0 {
      assert IntToString(i) + rest == "-" + (d + rest);
      ReadIntNegated(d + rest, n, rest);
    } else {
      ReadIntUnsigned(d + rest, n, rest);
    }
  }

  lemma ReadBoolOf(b: bool, rest: string)
    ensures ReadBool(BoolToString(b) + rest) == Some((b, rest))
  {
    var s := BoolToString(b) + rest;
    if b {
      assert s[..4] == "true";
    } else {
      assert s[0] == 'f';
      assert s[..5] == "false";
    }
  }

  lemma ReadStringFieldOf(key: string, x: Option<string>, rest: string)
    requires QuoteFree(x)
    ensures ReadStringField(key, key + (StringValue(x) + rest)) == Some((x, rest))
  {
    ReadLiteralOf(key, StringValue(x) + rest);
    ReadStringValueOf(x, rest);
  }

  lemma ReadIntFieldOf(key: string, i: int, rest: string)
    requires rest == [] || !IsDigit(rest[0])
    ensures ReadIntField(key, key + (IntToString(i) + rest)) == Some((i, rest))
  {
    ReadLiteralOf(key, IntToString(i) + rest);
    ReadIntOf(i, rest);
  }

  lemma ReadBoolFieldOf(key: string, b: bool, rest: string)
    ensures ReadBoolField(key, key + (BoolToString(b) + rest)) == Some((b, rest))
  {
    ReadLiteralOf(key, BoolToString(b) + rest);
    ReadBoolOf(b, rest);
  }

  lemma Regroup(a1: string, a2: string, a3: string, a4: string, a5: string, a6: string, a7: string, a8: string,
                a9: string, a10: string, a11: string, a12: string, a13: string, a14: string, a15: string)
    ensures a1 + a2 + a3 + a4 + a5 + a6 + a7 + a8 + a9 + a10 + a11 + a12 + a13 + a14 + a15
         == a1 + (a2 + (a3 + (a4 + (a5 + (a6 + (a7 + (a8 + (a9 + (a10 + (a11 + (a12 + (a13 + (a14 + a15)))))))))))))
  {
  }

  /**
   * Round trip: whenever no string field contains a double quote, the payload
   * reads back as exactly the fields it was built from, in the fixed key order.
   */
  lemma ParseCreateBookingPayload(b: BookingRequest)
    requires Unambiguous(b)
    ensures ParseBookingPayload(CreateBookingPayload(b)) == Some(b)
  {
    var t6 := AdditionalneedsKey + (StringValue(b.additionalneeds) + Close);
    var t5 := CheckoutKey + (StringValue(b.checkout) + t6);
    var t4 := CheckinKey + (StringValue(b.checkin) + t5);
    var t3 := DepositpaidKey + (BoolToString(b.depositpaid) + t4);
    var t2 := TotalpriceKey + (IntToString(b.totalprice) + t3);
    var t1 := LastnameKey + (StringValue(b.lastname) + t2);
    var t0 := Open + (StringValue(b.firstname) + t1);
    Regroup(Open, StringValue(b.firstname), LastnameKey, StringValue(b.lastname),
            TotalpriceKey, IntToString(b.totalprice), DepositpaidKey, BoolToString(b.depositpaid),
            CheckinKey, StringValue(b.checkin), CheckoutKey, StringValue(b.checkout),
            AdditionalneedsKey, StringValue(b.additionalneeds), Close);
    ReadStringFieldOf(Open, b.firstname, t1);
    ReadStringFieldOf(LastnameKey, b.lastname, t2);
    ReadIntFieldOf(TotalpriceKey, b.totalprice, t3);
    ReadBoolFieldOf(DepositpaidKey, b.depositpaid, t4);
    ReadStringFieldOf(CheckinKey, b.checkin, t5);
    ReadStringFieldOf(CheckoutKey, b.checkout, t6);
    ReadStringFieldOf(AdditionalneedsKey, b.additionalneeds, Close);
  }

  /** Two payloads built from quote-free fields are equal only if the fields are. */
  lemma CreateBookingPayloadInjective(a: BookingRequest, b: BookingRequest)
    requires Unambiguous(a) && Unambiguous(b)
    requires CreateBookingPayload(a) == CreateBookingPayload(b)
    ensures a == b
  {
    ParseCreateBookingPayload(a);
    ParseCreateBookingPayload(b);
  }

  /** Everything the template writes after the last name's value. */
  function AfterLastname(b: BookingRequest): string {
    TotalpriceKey + IntToString(b.totalprice)
    + DepositpaidKey + BoolToString(b.depositpaid)
    + CheckinKey + StringValue(b.checkin)
    + CheckoutKey + StringValue(b.checkout)
    + AdditionalneedsKey + StringValue(b.additionalneeds)
    + Close
  }

  lemma PayloadHead(b: BookingRequest)
    ensures CreateBookingPayload(b)
         == Open + (StringValue(b.firstname) + (LastnameKey + (StringValue(b.lastname) + AfterLastname(b))))
  {
    RegroupHead(Open, StringValue(b.firstname), LastnameKey, StringValue(b.lastname),
            TotalpriceKey, IntToString(b.totalprice), DepositpaidKey, BoolToString(b.depositpaid),
            CheckinKey, StringValue(b.checkin), CheckoutKey, StringValue(b.checkout),
            AdditionalneedsKey, StringValue(b.additionalneeds), Close);
  }

  lemma RegroupHead(a1: string, a2: string, a3: string, a4: string, a5: string, a6: string, a7: string, a8: string,
                    a9: string, a10: string, a11: string, a12: string, a13: string, a14: string, a15: string)
    ensures a1 + a2 + a3 + a4 + a5 + a6 + a7 + a8 + a9 + a10 + a11 + a12 + a13 + a14 + a15
         == a1 + (a2 + (a3 + (a4 + (a5 + a6 + a7 + a8 + a9 + a10 + a11 + a12 + a13 + a14 + a15))))
  {
  }

  /**
   * Without escaping, a double quote inside a field can move text from one
   * field into the next: a first name carrying `", "lastname": "` and the
   * following last name give the same payload as the shorter first name and a
   * last name carrying that text, although the two bookings differ.
   */
  lemma UnescapedQuoteCollision(x: string, y: string, z: string, b: BookingRequest)
    ensures var injected := "\"" + LastnameKey + "\"";
            var one := b.(firstname := Some(x + injected + y), lastname := Some(z));
            var two := b.(firstname := Some(x), lastname := Some(y + injected + z));
            one != two && CreateBookingPayload(one) == CreateBookingPayload(two)
  {
    var q := "\"";
    var one := b.(firstname := Some(x + (q + LastnameKey + q) + y), lastname := Some(z));
    var two := b.(firstname := Some(x), lastname := Some(y + (q + LastnameKey + q) + z));
    assert |one.firstname.value| > |two.firstname.value|;
    PayloadHead(one);
    PayloadHead(two);
    assert AfterLastname(one) == AfterLastname(two);
    ShiftAcrossFields(q, LastnameKey, x, y, z, AfterLastname(one));
  }

  lemma ShiftAcrossFields(q: string, k: string, x: string, y: string, z: string, t: string)
    ensures (q + (x + (q + k + q) + y) + q) + (k + ((q + z + q) + t))
         == (q + x + q) + (k + ((q + (y + (q + k + q) + z) + q) + t))
  {
  }

  /** A null string field appears as the bare literal `null`, right after its key. */
  lemma NullFieldIsBareNull(b: BookingRequest)
    requires b.firstname.None?
    ensures CreateBookingPayload(b)[|Open|..|Open| + 4] == "null"
    ensures CreateBookingPayload(b)[|Open| + 4..|Open| + 4 + |LastnameKey|] == LastnameKey
  {
    PayloadHead(b);
    SliceAfter(Open, "null", LastnameKey, StringValue(b.lastname) + AfterLastname(b));
  }

  /**
   * Every other null string field is also the bare literal `null`, sitting
   * directly between its own key and the next one.
   */
  lemma NullFieldsAreBareNull(b: BookingRequest)
    ensures b.lastname.None? ==> Occurs(LastnameKey + "null" + TotalpriceKey, CreateBookingPayload(b))
    ensures b.checkin.None? ==> Occurs(CheckinKey + "null" + CheckoutKey, CreateBookingPayload(b))
    ensures b.checkout.None? ==> Occurs(CheckoutKey + "null" + AdditionalneedsKey, CreateBookingPayload(b))
    ensures b.additionalneeds.None? ==> Occurs(AdditionalneedsKey + "null" + Close, CreateBookingPayload(b))
  {
    var first, last := StringValue(b.firstname), StringValue(b.lastname);
    var price, deposit := IntToString(b.totalprice), BoolToString(b.depositpaid);
    var checkin, checkout, needs := StringValue(b.checkin), StringValue(b.checkout), StringValue(b.additionalneeds);
    WindowsFront(Open, first, LastnameKey, last, TotalpriceKey, price, DepositpaidKey, deposit,
                 CheckinKey, checkin, CheckoutKey, checkout, AdditionalneedsKey, needs, Close);
    WindowsBack(Open, first, LastnameKey, last, TotalpriceKey, price, DepositpaidKey, deposit,
                CheckinKey, checkin, CheckoutKey, checkout, AdditionalneedsKey, needs, Close);
    FieldWindow(Open + first, LastnameKey, last, TotalpriceKey,
                price + DepositpaidKey + deposit + CheckinKey + checkin + CheckoutKey + checkout + AdditionalneedsKey + needs + Close);
    var upToCheckin := Open + first + LastnameKey + last + TotalpriceKey + price + DepositpaidKey + deposit;
    FieldWindow(upToCheckin, CheckinKey, checkin, CheckoutKey, checkout + AdditionalneedsKey + needs + Close);
    FieldWindow(upToCheckin + CheckinKey + checkin, CheckoutKey, checkout, AdditionalneedsKey, needs + Close);
    FieldWindow(upToCheckin + CheckinKey + checkin + CheckoutKey + checkout, AdditionalneedsKey, needs, Close, "");
  }

  /** The template's fifteen pieces, grouped around the last name and the check-in date. */
  lemma WindowsFront(a1: string, a2: string, a3: string, a4: string, a5: string, a6: string, a7: string, a8: string,
                     a9: string, a10: string, a11: string, a12: string, a13: string, a14: string, a15: string)
    ensures var all := a1 + a2 + a3 + a4 + a5 + a6 + a7 + a8 + a9 + a10 + a11 + a12 + a13 + a14 + a15;
            && all == (a1 + a2) + (a3 + a4 + a5) + (a6 + a7 + a8 + a9 + a10 + a11 + a12 + a13 + a14 + a15)
            && all == (a1 + a2 + a3 + a4 + a5 + a6 + a7 + a8) + (a9 + a10 + a11) + (a12 + a13 + a14 + a15)
  {
  }

  /** The template's fifteen pieces, grouped around the check-out date and the additional needs. */
  lemma WindowsBack(a1: string, a2: string, a3: string, a4: string, a5: string, a6: string, a7: string, a8: string,
                    a9: string, a10: string, a11: string, a12: string, a13: string, a14: string, a15: string)
    ensures var all := a1 + a2 + a3 + a4 + a5 + a6 + a7 + a8 + a9 + a10 + a11 + a12 + a13 + a14 + a15;
            && all == (a1 + a2 + a3 + a4 + a5 + a6 + a7 + a8 + a9 + a10) + (a11 + a12 + a13) + (a14 + a15)
            && all == (a1 + a2 + a3 + a4 + a5 + a6 + a7 + a8 + a9 + a10 + a11 + a12) + (a13 + a14 + a15) + ""
  {
  }

  /** A key, a value and the next key, written one after the other, occur together. */
  lemma FieldWindow(front: string, key: string, v: string, next: string, back: string)
    ensures Occurs(key + v + next, front + (key + v + next) + back)
  {
    OccursPrefix(key + v + next, "");
    assert key + v + next + "" == key + v + next;
    OccursExtend(key + v + next, front, key + v + next, back);
  }

  /**
   * The price and the deposit flag are written bare: the decimal digits and
   * `true`/`false` sit directly between their key and the next one, unquoted.
   */
  lemma ScalarFieldsUnquoted(b: BookingRequest)
    ensures Occurs(TotalpriceKey + IntToString(b.totalprice) + DepositpaidKey + BoolToString(b.depositpaid) + CheckinKey,
                   CreateBookingPayload(b))
  {
    var scalars := TotalpriceKey + IntToString(b.totalprice) + DepositpaidKey + BoolToString(b.depositpaid) + CheckinKey;
    var rest := StringValue(b.checkin) + CheckoutKey + StringValue(b.checkout) + AdditionalneedsKey + StringValue(b.additionalneeds) + Close;
    SplitAfterFive(TotalpriceKey, IntToString(b.totalprice), DepositpaidKey, BoolToString(b.depositpaid), CheckinKey,
                   StringValue(b.checkin), CheckoutKey, StringValue(b.checkout), AdditionalneedsKey, StringValue(b.additionalneeds), Close);
    assert AfterLastname(b) == scalars + rest;
    OccursPrefix(scalars, rest);
    PayloadHead(b);
    var front := Open + StringValue(b.firstname) + LastnameKey + StringValue(b.lastname);
    Flatten(Open, StringValue(b.firstname), LastnameKey, StringValue(b.lastname), AfterLastname(b));
    OccursExtend(scalars, front, AfterLastname(b), "");
  }

  lemma SplitAfterFive(a1: string, a2: string, a3: string, a4: string, a5: string, a6: string,
                       a7: string, a8: string, a9: string, a10: string, a11: string)
    ensures a1 + a2 + a3 + a4 + a5 + a6 + a7 + a8 + a9 + a10 + a11
         == (a1 + a2 + a3 + a4 + a5) + (a6 + a7 + a8 + a9 + a10 + a11)
  {
  }

  lemma Flatten(a: string, b: string, c: string, d: string, e: string)
    ensures a + (b + (c + (d + e))) == (a + b + c + d) + e + ""
  {
  }

  lemma SliceAfter(a: string, n: string, k: string, r: string)
    ensures (a + (n + (k + r)))[|a|..|a| + |n|] == n
    ensures (a + (n + (k + r)))[|a| + |n|..|a| + |n| + |k|] == k
  {
  }
}
