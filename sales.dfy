/** The sales service: pricing a sale, writing its fiscal receipt and handing
    the receipt on to the analytics microservice. */
module Sales {
  import opened Wrappers
  import opened Text
  import opened Receipts

  /** Price of one unit in dinars. */
  const BasePrice: int := 1000

  /** Unit price for a sale type: wholesale takes 15% off the base price
      (`1000 * 0.85`, which is exactly 850 in floating point). */
  function PricePerUnit(saleType: string): int
  {
    if saleType == "WHOLESALE" then BasePrice * 85 / 100 else BasePrice
  }

  /** Retail costs 1000, wholesale 850 = 0.85 × retail; any other value is
      priced as retail. */
  lemma PricingRule(saleType: string)
    ensures PricePerUnit("RETAIL") == 1000 && PricePerUnit("WHOLESALE") == 850
    ensures PricePerUnit("WHOLESALE") * 100 == PricePerUnit("RETAIL") * 85
    ensures saleType != "WHOLESALE" ==> PricePerUnit(saleType) == 1000
  {
  }

  /** Upper-casing of one character, enough for base-36 digits. */
  function UpperChar(c: char): (u: char)
    ensures 'a' <= c <= 'z' ==> u != c && 'A' <= u <= 'Z'
    ensures !('a' <= c <= 'z') ==> u == c
  {
    if 'a' <= c <= 'z' then (c as int - 'a' as int + 'A' as int) as char else c
  }

  function ToUpper(s: string): (r: string)
    ensures |r| == |s| && forall i :: 0 <= i < |s| ==> r[i] == UpperChar(s[i])
  {
    seq(|s|, i requires 0 <= i < |s| => UpperChar(s[i]))
  }

  /** JavaScript's `s.substring(start, end)` for `start <= end`: the indices are
      clamped to the string. */
  function Substring(s: string, start: nat, end: nat): (r: string)
    requires start <= end
  {
    if start >= |s| then [] else if end >= |s| then s[start..] else s[start..end]
  }

  /** The random part of a sales receipt number: characters 2 to 7 of the
      base-36 rendering of `Math.random()` (which starts with "0."), in upper case. */
  function RandomSuffix(random36: string): (r: string)
    ensures |r| <= 6
    ensures |random36| >= 8 ==> |r| == 6
    ensures forall i :: 0 <= i < |r| ==> !('a' <= r[i] <= 'z')
  {
    ToUpper(Substring(random36, 2, 8))
  }

  /** `FR-<Date.now()>-<suffix>`. */
  function SaleReceiptNumber(now: nat, random36: string): string
  {
    "FR-" + NatToString(now) + "-" + RandomSuffix(random36)
  }

  /** The receipt `processSale` saves, before and after its id is generated. */
  function SaleReceipt(id: int, serial: string, quantity: int, saleType: string, paymentMethod: string,
                       sellerId: Option<int>, now: nat, random36: string): FiscalReceipt
  {
    var price := PricePerUnit(saleType);
    FiscalReceipt(
      id,
      SaleReceiptNumber(now, random36),
      saleType,
      paymentMethod,
      [LineItem(0, serial, serial, quantity, price)],
      price * quantity,
      now,
      sellerId)
  }

  /** The number reads "FR-", the timestamp in decimal (which reads back as
      the timestamp, by Text.ParseNatToString), "-" and the suffix. */
  lemma SaleReceiptNumberFields(now: nat, random36: string)
    ensures var n := SaleReceiptNumber(now, random36);
      var t := NatToString(now);
      && |n| == 4 + |t| + |RandomSuffix(random36)|
      && n[..3] == "FR-"
      && n[3..3 + |t|] == t
      && n[3 + |t|] == '-'
      && n[4 + |t|..] == RandomSuffix(random36)
  {
    var t := NatToString(now);
    var u := RandomSuffix(random36);
    DashFields(t, u);
  }

  lemma DashFields(t: string, u: string)
    ensures var n := "FR-" + t + "-" + u;
      && |n| == 4 + |t| + |u|
      && n[..3] == "FR-" && n[3..3 + |t|] == t && n[3 + |t|] == '-' && n[4 + |t|..] == u
  {
    var n := "FR-" + t + "-" + u;
    assert n == "FR-" + (t + ("-" + u));
    assert n[3..] == t + ("-" + u);
    assert n[3 + |t|..] == "-" + u;
  }

  /** The receipt of a sale has exactly one line item: perfume id 0, the serial
      number as both serial and name, the quantity sold and the unit price; the
      total is unit price × quantity; sale type, payment method, seller and
      sale date are the caller's. */
  lemma SaleReceiptShape(id: int, serial: string, quantity: int, saleType: string,
                         paymentMethod: string, sellerId: Option<int>,
                         now: nat, random36: string)
    ensures var r := SaleReceipt(id, serial, quantity, saleType, paymentMethod, sellerId, now, random36);
      && |r.soldPerfumes| == 1
      && r.soldPerfumes[0] == LineItem(0, serial, serial, quantity, PricePerUnit(saleType))
      && r.totalAmount == PricePerUnit(saleType) * quantity
      && (saleType == "WHOLESALE" ==> r.totalAmount == 850 * quantity)
      && (saleType != "WHOLESALE" ==> r.totalAmount == 1000 * quantity)
      && r.saleType == saleType && r.paymentMethod == paymentMethod && r.sellerId == sellerId
      && r.saleDate == now
      && r.receiptNumber == SaleReceiptNumber(now, random36)
  {
  }

  datatype SaleError = SaveFailed

  /** The sales service over its `fiscal_receipts` table. `forwarded` lists the
      receipts handed to the analytics microservice, in order. */
  class SalesService {
    var receipts: seq<FiscalReceipt>
    var nextId: int
    var forwarded: seq<FiscalReceipt>

    ghost predicate Valid()
      reads this
    {
      nextId >= 1 && forall i :: 0 <= i < |receipts| ==> 1 <= receipts[i].id < nextId
    }

    constructor ()
      ensures Valid() && receipts == [] && nextId == 1 && forwarded == []
    {
      receipts, nextId, forwarded := [], 1, [];
    }

    /** `processSale`: prices the sale, saves one receipt and then forwards it to
      analytics. `now` is `Date.now()` (also the sale date), `random36` the
      base-36 rendering of `Math.random()`, and `saveFails` says whether the
      repository's save throws. The caller's role is accepted and not used. */
    method ProcessSale(serial: string, quantity: int, saleType: string, paymentMethod: string,
                       sellerId: Option<int>, userRole: string,
                       now: nat, random36: string, saveFails: bool)
      returns (r: Result<FiscalReceipt, SaleError>)
      requires Valid()
      modifies this
      ensures Valid()
      ensures saveFails ==> r == Err(SaveFailed) && unchanged(this)
      ensures !saveFails ==>
        var saved := SaleReceipt(old(nextId), serial, quantity, saleType, paymentMethod, sellerId, now, random36);
        && r == Ok(saved)
        && receipts == old(receipts) + [saved]
        && nextId == old(nextId) + 1
        && forwarded == old(forwarded) + [saved]
    {
      var pricePerUnit := PricePerUnit(saleType);
      var totalAmount := pricePerUnit * quantity;
      var soldPerfumes := [LineItem(0, serial, serial, quantity, pricePerUnit)];
      var receiptNumber := SaleReceiptNumber(now, random36);
      if saveFails {
        r := Err(SaveFailed);
        return;
      }
      var saved := FiscalReceipt(nextId, receiptNumber, saleType, paymentMethod, soldPerfumes,
                                 totalAmount, now, sellerId);
      receipts := receipts + [saved];
      nextId := nextId + 1;
      // sendSaleToAnalysis catches and logs its own failures.
      forwarded := forwarded + [saved];
      r := Ok(saved);
    }

    /** `getAllReceipts`: every receipt, newest first. */
    method GetAllReceipts() returns (r: seq<FiscalReceipt>)
      ensures multiset(r) == multiset(receipts)
      ensures forall i, j :: 0 <= i < j < |r| ==> r[i].saleDate >= r[j].saleDate
    {
      r := ByDateDesc(receipts);
    }

    /** `getReceiptById`: the receipt with that id, or None. */
    method GetReceiptById(id: int) returns (r: Option<FiscalReceipt>)
      ensures r.None? <==> forall i :: 0 <= i < |receipts| ==> receipts[i].id != id
      ensures r.Some? ==> r.value in receipts && r.value.id == id
    {
      r := FindById(receipts, id);
    }
  }
}
