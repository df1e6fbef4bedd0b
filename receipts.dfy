/** The fiscal receipt record. The sales and the analytics microservices each
    keep a `fiscal_receipts` table with the same fields. */
module Receipts {
  import opened Wrappers

  /** One entry of a receipt's `soldPerfumes`. Prices are whole dinars. */
  datatype LineItem = LineItem(
    perfumeId: int,
    serialNumber: string,
    name: string,
    quantity: int,
    pricePerUnit: int)

  /** A row of `fiscal_receipts`; `saleDate` is a timestamp in milliseconds,
      `saleType` and `paymentMethod` are the enum values as strings. */
  datatype FiscalReceipt = FiscalReceipt(
    id: int,
    receiptNumber: string,
    saleType: string,
    paymentMethod: string,
    soldPerfumes: seq<LineItem>,
    totalAmount: int,
    saleDate: int,
    sellerId: Option<int>)

  /** `findOne({ where: { id } })`: the first receipt with that id, or None. */
  function FindById(receipts: seq<FiscalReceipt>, id: int): (r: Option<FiscalReceipt>)
    ensures r.None? <==> forall i :: 0 <= i < |receipts| ==> receipts[i].id != id
    ensures r.Some? ==> r.value in receipts && r.value.id == id
  {
    if receipts == [] then None
    else if receipts[0].id == id then Some(receipts[0])
    else FindById(receipts[1..], id)
  }

  ghost predicate DateDescending(rs: seq<FiscalReceipt>)
  {
    forall i, j :: 0 <= i < j < |rs| ==> rs[i].saleDate >= rs[j].saleDate
  }

  /** Putting a receipt no older than the head in front keeps the order. */
  lemma ConsDescending(a: FiscalReceipt, t: seq<FiscalReceipt>)
    requires DateDescending(t)
    requires t == [] || a.saleDate >= t[0].saleDate
    ensures DateDescending([a] + t)
  {
    forall i, j | 0 <= i < j < |[a] + t|
      ensures ([a] + t)[i].saleDate >= ([a] + t)[j].saleDate
    {
      if i == 0 && j > 1 {
        assert t[0].saleDate >= t[j - 1].saleDate;
      }
    }
  }

  /** Inserts `x` into a list ordered by descending `saleDate`; the head of
      the result is `x` or the old head. */
  function InsertByDate(x: FiscalReceipt, rs: seq<FiscalReceipt>): (r: seq<FiscalReceipt>)
    requires DateDescending(rs)
    ensures multiset(r) == multiset(rs) + multiset{x}
    ensures r[0] == x || (rs != [] && r[0] == rs[0])
    ensures DateDescending(r)
  {
    if rs == [] || x.saleDate >= rs[0].saleDate then
      ConsDescending(x, rs);
      [x] + rs
    else
      assert rs == [rs[0]] + rs[1..];
      var t := InsertByDate(x, rs[1..]);
      ConsDescending(rs[0], t);
      [rs[0]] + t
  }

  /** `find({ order: { saleDate: "DESC" } })`: all receipts, newest first. */
  function ByDateDesc(rs: seq<FiscalReceipt>): (r: seq<FiscalReceipt>)
    ensures multiset(r) == multiset(rs)
    ensures DateDescending(r)
  {
    if rs == [] then []
    else
      assert rs == [rs[0]] + rs[1..];
      InsertByDate(rs[0], ByDateDesc(rs[1..]))
  }
}
