/** The analytics microservice's own copy of the fiscal receipts: receipts
    forwarded by the sales service are stored under a new number of the form
    `FR-YYYYMMDD-NNNN`, where NNNN is the day's sequence number. */
module FiscalReceipts {
  import opened Wrappers
  import opened Text
  import opened Receipts

  // ---------------------------------------------------------------------------
  // Receipt numbers
  // ---------------------------------------------------------------------------

  /** The `NNNN` part: `String(count + 1).padStart(4, '0')`. */
  function SequencePart(count: nat): (r: string)
    ensures AllDigits(r) && ParseNat(r) == count + 1
    ensures count + 1 < 10000 ==> |r| == 4
    ensures count + 1 >= 10000 ==> |r| > 4
  {
    PadStartParses(count + 1, 4);
    DigitsAbove(count + 1, 4);
    DigitsBelow(count + 1, 4);
    PadStart(NatToString(count + 1), 4, '0')
  }

  /** The date part `FR-YYYYMMDD-`; `month0` is `getMonth()` (0..11). */
  function DatePrefix(year: int, month0: int, day: int): string
  {
    "FR-" + IntToString(year) + PadStart(IntToString(month0 + 1), 2, '0') + PadStart(IntToString(day), 2, '0') + "-"
  }

  /** `generateReceiptNumber` for the date `year`/`month0`/`day` and `count`
      receipts already counted for the day. */
  function ReceiptNumber(year: int, month0: int, day: int, count: nat): string
  {
    DatePrefix(year, month0, day) + SequencePart(count)
  }

  /** `r` is `FR-`, then `ys`, `mm`, `dd`, then `-` and `n`, at these positions. */
  predicate Layout(r: string, ys: string, mm: string, dd: string, n: string)
  {
    var y := |ys|;
    && |mm| == 2 && |dd| == 2
    && |r| == 8 + y + |n|
    && r[..3] == "FR-"
    && r[3..3 + y] == ys
    && r[3 + y..5 + y] == mm
    && r[5 + y..7 + y] == dd
    && r[7 + y] == '-'
    && r[8 + y..] == n
  }

  /** For a calendar date the number is laid out field by field: `FR-`, the
      year, the month and the day as two digits each (which read back as the
      month and the day, by Pad2), `-`, and the sequence part, which reads back
      as `count + 1`, has at least four digits and is never truncated. */
  lemma ReceiptNumberFields(year: nat, month0: nat, day: nat, count: nat)
    requires month0 < 12 && 1 <= day <= 31
    ensures Layout(ReceiptNumber(year, month0, day, count), NatToString(year), Pad2(month0 + 1), Pad2(day),
                   SequencePart(count))
  {
    ReceiptNumberForm(year, month0, day, count);
    TwoDigitFields(month0 + 1, day);
    SliceFields(ReceiptNumber(year, month0, day, count), NatToString(year), Pad2(month0 + 1), Pad2(day),
                SequencePart(count));
  }

  lemma ReceiptNumberForm(year: nat, month0: nat, day: nat, count: nat)
    ensures ReceiptNumber(year, month0, day, count) ==
      "FR-" + NatToString(year) + Pad2(month0 + 1) + Pad2(day) + "-" + SequencePart(count)
  {
  }

  lemma TwoDigitFields(month: nat, day: nat)
    requires month <= 12 && day <= 31
    ensures |Pad2(month)| == 2 && |Pad2(day)| == 2
  {
  }

  lemma SliceFields(r: string, ys: string, mm: string, dd: string, n: string)
    requires |mm| == 2 && |dd| == 2
    requires r == "FR-" + ys + mm + dd + "-" + n
    ensures Layout(r, ys, mm, dd, n)
  {
    var y := |ys|;
    assert r == "FR-" + (ys + (mm + (dd + ("-" + n))));
    assert r[3..] == ys + (mm + (dd + ("-" + n)));
    assert r[3 + y..] == mm + (dd + ("-" + n));
    assert r[5 + y..] == dd + ("-" + n);
    assert r[7 + y..] == "-" + n;
  }

  /** On the same day, different counts give different numbers. */
  lemma ReceiptNumberInjective(year: int, month0: int, day: int, c1: nat, c2: nat)
    requires ReceiptNumber(year, month0, day, c1) == ReceiptNumber(year, month0, day, c2)
    ensures c1 == c2
  {
    var p := DatePrefix(year, month0, day);
    var s1, s2 := SequencePart(c1), SequencePart(c2);
    assert (p + s1)[|p|..] == s1;
    assert (p + s2)[|p|..] == s2;
  }

  // ---------------------------------------------------------------------------
  // The day's count
  // ---------------------------------------------------------------------------

  /** The count as written: `count({ where: { saleDate: todayStart } })`
      matches only receipts stamped exactly at midnight. */
  function CountAtMidnight(rs: seq<FiscalReceipt>, todayStart: int): (n: nat)
    ensures n <= |rs|
  {
    if rs == [] then 0
    else CountAtMidnight(rs[..|rs| - 1], todayStart) + (if rs[|rs| - 1].saleDate == todayStart then 1 else 0)
  }

  /** The count the comment asks for: receipts of today, in `[todayStart, todayEnd)`. */
  function CountToday(rs: seq<FiscalReceipt>, todayStart: int, todayEnd: int): (n: nat)
    ensures n <= |rs|
  {
    if rs == [] then 0
    else
      var d := rs[|rs| - 1].saleDate;
      CountToday(rs[..|rs| - 1], todayStart, todayEnd) + (if todayStart <= d < todayEnd then 1 else 0)
  }

  lemma {:induction false} NoneAtMidnight(rs: seq<FiscalReceipt>, todayStart: int)
    requires forall i :: 0 <= i < |rs| ==> rs[i].saleDate != todayStart
    ensures CountAtMidnight(rs, todayStart) == 0
  {
    if rs != [] { NoneAtMidnight(rs[..|rs| - 1], todayStart); }
  }

  /** As written, a day whose first receipt was not stamped at midnight keeps
      getting sequence number 0001: the next number equals the stored one. */
  lemma MidnightCountRepeatsNumber(rs: seq<FiscalReceipt>, year: int, month0: int, day: int,
                                   todayStart: int, k: nat)
    requires k < |rs| && rs[k].receiptNumber == ReceiptNumber(year, month0, day, 0)
    requires forall i :: 0 <= i < |rs| ==> rs[i].saleDate != todayStart
    ensures ReceiptNumber(year, month0, day, CountAtMidnight(rs, todayStart)) == rs[k].receiptNumber
  {
    NoneAtMidnight(rs, todayStart);
  }

  /** The concrete case: on 14 October 2026, one receipt sold at 10:00 holds
      `FR-20261014-0001`, and the next receipt of the day is given the same
      number, which the unique column rejects. */
  lemma MidnightCountCounterexample()
    ensures var todayStart := 1791936000000;
      var rs := [FiscalReceipt(1, "FR-20261014-0001", "RETAIL", "CASH", [], 1000,
                               todayStart + 36000000, None)];
      && CountAtMidnight(rs, todayStart) == 0
      && CountToday(rs, todayStart, todayStart + 86400000) == 1
      && ReceiptNumber(2026, 9, 14, CountAtMidnight(rs, todayStart)) == rs[0].receiptNumber
  {
    var todayStart := 1791936000000;
    var rs := [FiscalReceipt(1, "FR-20261014-0001", "RETAIL", "CASH", [], 1000,
                             todayStart + 36000000, None)];
    assert rs[..0] == [];
    assert CountAtMidnight(rs, todayStart) == 0;
    assert CountToday(rs, todayStart, todayStart + 86400000) == 1;
    FirstNumberOfDay();
  }

  lemma FirstNumberOfDay()
    ensures ReceiptNumber(2026, 9, 14, 0) == "FR-20261014-0001"
  {
    FirstNumberParts();
    NumberLiteral();
  }

  lemma FirstNumberParts()
    ensures ReceiptNumber(2026, 9, 14, 0) == "FR-" + "2026" + "10" + "14" + "-" + "0001"
  {
    ReceiptNumberForm(2026, 9, 14, 0);
    Year2026();
    MonthAndDay();
    FirstSequencePart();
  }

  lemma NumberLiteral()
    ensures "FR-" + "2026" + "10" + "14" + "-" + "0001" == "FR-20261014-0001"
  {
  }

  lemma Year2026()
    ensures NatToString(2026) == "2026"
  {
    assert NatToString(2) == "2";
    assert NatToString(20) == "20";
    assert NatToString(202) == "202";
  }

  lemma MonthAndDay()
    ensures Pad2(10) == "10" && Pad2(14) == "14"
  {
    assert NatToString(1) == "1";
    assert NatToString(10) == "10";
    assert NatToString(14) == "14";
  }

  lemma FirstSequencePart()
    ensures SequencePart(0) == "0001"
  {
    assert NatToString(1) == "1";
    assert Repeat('0', 3) == "000";
  }

  /** The numbering of a day: every stored receipt carrying today's prefix has
      a sequence number below the day's count. */
  ghost predicate NumberedBelowCount(rs: seq<FiscalReceipt>, year: int, month0: int, day: int, count: nat)
  {
    forall i, j: nat :: 0 <= i < |rs| && rs[i].receiptNumber == ReceiptNumber(year, month0, day, j) ==> j < count
  }

  /** With the corrected count the new number is fresh. */
  lemma CountTodayGivesFreshNumber(rs: seq<FiscalReceipt>, year: int, month0: int, day: int,
                                   todayStart: int, todayEnd: int)
    requires NumberedBelowCount(rs, year, month0, day, CountToday(rs, todayStart, todayEnd))
    ensures forall i :: 0 <= i < |rs| ==>
      rs[i].receiptNumber != ReceiptNumber(year, month0, day, CountToday(rs, todayStart, todayEnd))
  {
    var c := CountToday(rs, todayStart, todayEnd);
    forall i | 0 <= i < |rs| ensures rs[i].receiptNumber != ReceiptNumber(year, month0, day, c) {
      if rs[i].receiptNumber == ReceiptNumber(year, month0, day, c) {
        assert false;
      }
    }
  }

  /** Saving receipt `x` of today keeps the numbering: the count grows by one
      and covers the new sequence number. */
  lemma NumberingPreserved(rs: seq<FiscalReceipt>, x: FiscalReceipt, year: int, month0: int, day: int,
                           todayStart: int, todayEnd: int)
    requires NumberedBelowCount(rs, year, month0, day, CountToday(rs, todayStart, todayEnd))
    requires todayStart <= x.saleDate < todayEnd
    requires x.receiptNumber == ReceiptNumber(year, month0, day, CountToday(rs, todayStart, todayEnd))
    ensures CountToday(rs + [x], todayStart, todayEnd) == CountToday(rs, todayStart, todayEnd) + 1
    ensures NumberedBelowCount(rs + [x], year, month0, day, CountToday(rs + [x], todayStart, todayEnd))
  {
    var c := CountToday(rs, todayStart, todayEnd);
    assert (rs + [x])[..|rs|] == rs;
    var rs' := rs + [x];
    forall i, j: nat | 0 <= i < |rs'| && rs'[i].receiptNumber == ReceiptNumber(year, month0, day, j)
      ensures j < c + 1
    {
      if i == |rs| { ReceiptNumberInjective(year, month0, day, j, c); }
      else { assert rs'[i] == rs[i]; }
    }
  }

  // ---------------------------------------------------------------------------
  // The service
  // ---------------------------------------------------------------------------

  /** The body the sales service posts: the receipt fields it copies, and the
      sale date when one was sent. */
  datatype SaleData = SaleData(
    saleType: string,
    paymentMethod: string,
    soldPerfumes: seq<LineItem>,
    totalAmount: int,
    sellerId: Option<int>,
    saleDate: Option<int>)

  /** The moment of the call: `Date.now()` and today's calendar date in local
      time with its bounds `[start, end)` in milliseconds. */
  datatype Today = Today(now: int, year: int, month0: int, day: int, start: int, end: int)

  datatype ReceiptError = DuplicateReceiptNumber(receiptNumber: string)

  predicate NumberTaken(rs: seq<FiscalReceipt>, receiptNumber: string)
  {
    exists i :: 0 <= i < |rs| && rs[i].receiptNumber == receiptNumber
  }

  predicate UniqueNumbers(rs: seq<FiscalReceipt>)
  {
    forall i, j :: 0 <= i < j < |rs| ==> rs[i].receiptNumber != rs[j].receiptNumber
  }

  /** `findOne({ where: { receiptNumber } })`. */
  function FindByNumber(rs: seq<FiscalReceipt>, receiptNumber: string): (r: Option<FiscalReceipt>)
    ensures r.None? <==> !NumberTaken(rs, receiptNumber)
    ensures r.Some? ==> r.value in rs && r.value.receiptNumber == receiptNumber
    ensures r.Some? && UniqueNumbers(rs) ==>
      forall i :: 0 <= i < |rs| && rs[i].receiptNumber == receiptNumber ==> rs[i] == r.value
  {
    if rs == [] then None
    else if rs[0].receiptNumber == receiptNumber then Some(rs[0])
    else
      var r := FindByNumber(rs[1..], receiptNumber);
      assert forall i :: 1 <= i < |rs| ==> rs[i] == rs[1..][i - 1];
      r
  }

  lemma AppendKeepsUnique(rs: seq<FiscalReceipt>, x: FiscalReceipt)
    requires UniqueNumbers(rs) && !NumberTaken(rs, x.receiptNumber)
    ensures UniqueNumbers(rs + [x])
  {
    var t := rs + [x];
    forall i, j | 0 <= i < j < |t| ensures t[i].receiptNumber != t[j].receiptNumber {
      if j == |rs| { assert t[i] == rs[i]; }
    }
  }

  /** Ids stay in `[1, next)` when a receipt with id `next` is added and the bound moves past it. */
  lemma AppendKeepsIds(rs: seq<FiscalReceipt>, x: FiscalReceipt, next: int)
    requires forall i :: 0 <= i < |rs| ==> 1 <= rs[i].id < next
    requires 1 <= x.id == next
    ensures forall i :: 0 <= i < |rs + [x]| ==> 1 <= (rs + [x])[i].id < next + 1
  {
  }

  /** The receipt `createFiscalReceipt` saves: the sale fields, the sale date
      defaulting to now, and the generated number. */
  function NewReceipt(id: int, number: string, data: SaleData, now: int): (r: FiscalReceipt)
    ensures r.id == id && r.receiptNumber == number
    ensures r.saleType == data.saleType && r.paymentMethod == data.paymentMethod
    ensures r.soldPerfumes == data.soldPerfumes && r.totalAmount == data.totalAmount
    ensures r.sellerId == data.sellerId
    ensures r.saleDate == if data.saleDate.Some? then data.saleDate.value else now
  {
    FiscalReceipt(id, number, data.saleType, data.paymentMethod, data.soldPerfumes, data.totalAmount,
                  if data.saleDate.Some? then data.saleDate.value else now, data.sellerId)
  }

  lemma NoneAtMidnightIfAbsent(rs: seq<FiscalReceipt>, todayStart: int)
    ensures (forall i :: 0 <= i < |rs| ==> rs[i].saleDate != todayStart) ==> CountAtMidnight(rs, todayStart) == 0
  {
    if forall i :: 0 <= i < |rs| ==> rs[i].saleDate != todayStart {
      NoneAtMidnight(rs, todayStart);
    }
  }

  class FiscalReceiptService {
    var receipts: seq<FiscalReceipt>
    var nextId: int

    ghost predicate Valid()
      reads this
    {
      && nextId >= 1
      && (forall i :: 0 <= i < |receipts| ==> 1 <= receipts[i].id < nextId)
      && UniqueNumbers(receipts)
    }

    constructor ()
      ensures Valid() && receipts == [] && nextId == 1
    {
      receipts, nextId := [], 1;
    }

    /** `createFiscalReceipt` as written: numbers the receipt with the count of
      stored receipts stamped exactly at today's midnight, copies the sale
      fields, defaults the sale date to now and saves it. A number that is
      already stored fails the save and nothing changes; so, when no receipt
      sits at midnight and the day's first number is already stored, the
      call fails. */
    method CreateFiscalReceipt(data: SaleData, today: Today) returns (r: Result<FiscalReceipt, ReceiptError>)
      requires Valid()
      modifies this
      ensures Valid()
      ensures var number := ReceiptNumber(today.year, today.month0, today.day,
                                          CountAtMidnight(old(receipts), today.start));
        if NumberTaken(old(receipts), number) then
          r == Err(DuplicateReceiptNumber(number)) && receipts == old(receipts) && nextId == old(nextId)
        else
          && r == Ok(NewReceipt(old(nextId), number, data, today.now))
          && receipts == old(receipts) + [r.value]
          && nextId == old(nextId) + 1
      ensures (forall i :: 0 <= i < |old(receipts)| ==> old(receipts)[i].saleDate != today.start)
              && NumberTaken(old(receipts), ReceiptNumber(today.year, today.month0, today.day, 0))
              ==> r.Err?
    {
      NoneAtMidnightIfAbsent(receipts, today.start);
      var count := CountAtMidnight(receipts, today.start);
      var number := ReceiptNumber(today.year, today.month0, today.day, count);
      r := Save(NewReceipt(nextId, number, data, today.now));
    }

    /** `createFiscalReceipt` with the corrected count, the receipts of today in
      `[start, end)`. When the day's receipts are numbered below that count the
      new number is free, so the save succeeds; a receipt dated today keeps
      the day numbered below the grown count. */
    method CreateFiscalReceiptCorrected(data: SaleData, today: Today)
      returns (r: Result<FiscalReceipt, ReceiptError>)
      requires Valid()
      modifies this
      ensures Valid()
      ensures var number := ReceiptNumber(today.year, today.month0, today.day,
                                          CountToday(old(receipts), today.start, today.end));
        if NumberTaken(old(receipts), number) then
          r == Err(DuplicateReceiptNumber(number)) && receipts == old(receipts) && nextId == old(nextId)
        else
          && r == Ok(NewReceipt(old(nextId), number, data, today.now))
          && receipts == old(receipts) + [r.value]
          && nextId == old(nextId) + 1
      ensures NumberedBelowCount(old(receipts), today.year, today.month0, today.day,
                                 CountToday(old(receipts), today.start, today.end))
              ==> r.Ok?
      ensures NumberedBelowCount(old(receipts), today.year, today.month0, today.day,
                                 CountToday(old(receipts), today.start, today.end))
              && today.start <= r.value.saleDate < today.end
              ==> NumberedBelowCount(receipts, today.year, today.month0, today.day,
                                     CountToday(receipts, today.start, today.end))
    {
      var count := CountToday(receipts, today.start, today.end);
      var number := ReceiptNumber(today.year, today.month0, today.day, count);
      var receipt := NewReceipt(nextId, number, data, today.now);
      if NumberedBelowCount(receipts, today.year, today.month0, today.day, count) {
        CountTodayGivesFreshNumber(receipts, today.year, today.month0, today.day, today.start, today.end);
        if today.start <= receipt.saleDate < today.end {
          NumberingPreserved(receipts, receipt, today.year, today.month0, today.day, today.start, today.end);
        }
      }
      r := Save(receipt);
    }

    /** `save` on the `fiscal_receipts` table, whose `receiptNumber` column is
      unique: a taken number fails and nothing changes; otherwise the receipt
      is appended under the next id. */
    method Save(receipt: FiscalReceipt) returns (r: Result<FiscalReceipt, ReceiptError>)
      requires Valid() && receipt.id == nextId
      modifies this
      ensures Valid()
      ensures if NumberTaken(old(receipts), receipt.receiptNumber) then
          r == Err(DuplicateReceiptNumber(receipt.receiptNumber)) && receipts == old(receipts) && nextId == old(nextId)
        else
          r == Ok(receipt) && receipts == old(receipts) + [receipt] && nextId == old(nextId) + 1
    {
      if FindByNumber(receipts, receipt.receiptNumber).Some? {
        r := Err(DuplicateReceiptNumber(receipt.receiptNumber));
        return;
      }
      AppendKeepsUnique(receipts, receipt);
      AppendKeepsIds(receipts, receipt, nextId);
      receipts := receipts + [receipt];
      nextId := nextId + 1;
      r := Ok(receipt);
    }

    /** `getAllReceipts`: every receipt, newest first. */
    method GetAllReceipts() returns (r: seq<FiscalReceipt>)
      ensures multiset(r) == multiset(receipts)
      ensures forall i, j :: 0 <= i < j < |r| ==> r[i].saleDate >= r[j].saleDate
    {
      r := ByDateDesc(receipts);
    }

    /** `getReceiptById`. */
    method GetReceiptById(id: int) returns (r: Option<FiscalReceipt>)
      ensures r.None? <==> forall i :: 0 <= i < |receipts| ==> receipts[i].id != id
      ensures r.Some? ==> r.value in receipts && r.value.id == id
    {
      r := FindById(receipts, id);
    }

    /** `getReceiptByNumber`: the receipt with that number, or None; numbers
      are unique, so it is the only one. */
    method GetReceiptByNumber(receiptNumber: string) returns (r: Option<FiscalReceipt>)
      requires Valid()
      ensures r.None? <==> !NumberTaken(receipts, receiptNumber)
      ensures r.Some? ==> r.value in receipts && r.value.receiptNumber == receiptNumber
      ensures r.Some? ==> forall i :: 0 <= i < |receipts| && receipts[i].receiptNumber == receiptNumber
                                      ==> receipts[i] == r.value
    {
      r := FindByNumber(receipts, receiptNumber);
    }
  }
}
