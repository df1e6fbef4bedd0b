/** The text helpers of the analytics microservice's PDF receipts: labels for
    the payment method and the sale type, the line total, and the two date
    formats. Date fields are taken as the integers `getDate()`, `getMonth()`,
    `getFullYear()`, `getHours()`, `getMinutes()` and `getSeconds()` return. */
module ReceiptPdf {
  import opened Text
  import opened Receipts
  import opened Wrappers
  import Sales

  /** `getPaymentMethodText`. */
  function PaymentMethodText(pm: string): (r: string)
    ensures pm == "CASH" ==> r == "Gotovina"
    ensures pm == "CARD" ==> r == "Kartica"
    ensures pm == "MIXED" ==> r == "Mesovito"
    ensures pm != "CASH" && pm != "CARD" && pm != "MIXED" ==> r == pm
  {
    match pm
    case "CASH" => "Gotovina"
    case "CARD" => "Kartica"
    case "MIXED" => "Mesovito"
    case _ => pm
  }

  predicate IsPaymentLabel(s: string) { s == "Gotovina" || s == "Kartica" || s == "Mesovito" }

  /** The printed text identifies the payment method, unless a method is
      itself spelled like one of the three labels. */
  lemma PaymentMethodTextInjective(a: string, b: string)
    requires !IsPaymentLabel(a) && !IsPaymentLabel(b)
    requires PaymentMethodText(a) == PaymentMethodText(b)
    ensures a == b
  {
  }

  /** `saleType === 'RETAIL' ? 'Maloprodaja' : 'Veleprodaja'`. */
  function SaleTypeLabel(saleType: string): (r: string)
    ensures r == "Maloprodaja" <==> saleType == "RETAIL"
    ensures r == "Veleprodaja" <==> saleType != "RETAIL"
  {
    if saleType == "RETAIL" then "Maloprodaja" else "Veleprodaja"
  }

  /** The `Ukupno` column of a line: `quantity * pricePerUnit`. */
  function LineTotal(item: LineItem): int
  {
    item.quantity * item.pricePerUnit
  }

  function LinesTotal(items: seq<LineItem>): int
  {
    if items == [] then 0 else LinesTotal(items[..|items| - 1]) + LineTotal(items[|items| - 1])
  }

  /** On a receipt made by the sales service the printed line totals add up
      to the receipt's `totalAmount`. */
  lemma SaleReceiptLinesAddUp(id: int, serial: string, quantity: int, saleType: string, paymentMethod: string,
                              sellerId: Option<int>, now: nat, random36: string)
    ensures var r := Sales.SaleReceipt(id, serial, quantity, saleType, paymentMethod, sellerId, now, random36);
      LinesTotal(r.soldPerfumes) == r.totalAmount
  {
    var r := Sales.SaleReceipt(id, serial, quantity, saleType, paymentMethod, sellerId, now, random36);
    Sales.SaleReceiptShape(id, serial, quantity, saleType, paymentMethod, sellerId, now, random36);
    assert r.soldPerfumes[..0] == [];
  }

  /** `x.toString().padStart(2, '0')`. */
  function Pad(x: int): string
  {
    PadStart(IntToString(x), 2, '0')
  }

  /** `formatDateShort`: `DD.MM.YYYY.`. */
  function FormatDateShort(day: int, month0: int, year: int): string
  {
    Pad(day) + "." + Pad(month0 + 1) + "." + IntToString(year) + "."
  }

  /** `formatDate`: `DD.MM.YYYY. HH:MM:SS`. */
  function FormatDate(day: int, month0: int, year: int, hours: int, minutes: int, seconds: int): string
  {
    Pad(day) + "." + Pad(month0 + 1) + "." + IntToString(year) + ". "
      + Pad(hours) + ":" + Pad(minutes) + ":" + Pad(seconds)
  }

  /** The short form is the long form up to the space before the time. */
  lemma ShortFormIsPrefix(day: int, month0: int, year: int, hours: int, minutes: int, seconds: int)
    ensures var short := FormatDateShort(day, month0, year);
      var long := FormatDate(day, month0, year, hours, minutes, seconds);
      && |short| < |long|
      && long[..|short|] == short
      && long[|short|] == ' '
  {
    var d, m, y := Pad(day), Pad(month0 + 1), IntToString(year);
    var h, mi, se := Pad(hours), Pad(minutes), Pad(seconds);
    assert FormatDateShort(day, month0, year) == d + "." + m + "." + y + ".";
    assert FormatDate(day, month0, year, hours, minutes, seconds) == d + "." + m + "." + y + ". " + h + ":" + mi + ":" + se;
    Regroup(d, m, y, h, mi, se);
    SplitAt(d + "." + m + "." + y + ".", h + ":" + mi + ":" + se);
  }

  lemma Regroup(dd: string, mm: string, yyyy: string, hh: string, mi: string, ss: string)
    ensures dd + "." + mm + "." + yyyy + ". " + hh + ":" + mi + ":" + ss
         == (dd + "." + mm + "." + yyyy + ".") + " " + (hh + ":" + mi + ":" + ss)
  {
  }

  lemma SplitAt(short: string, time: string)
    ensures var long := short + " " + time;
      |short| < |long| && long[..|short|] == short && long[|short|] == ' ' && long[|short| + 1..] == time
  {
  }

  /** The fixed layout of a date with a four-digit year, by position. */
  predicate DateLayout(r: string, dd: string, mm: string, yyyy: string, hh: string, mi: string, ss: string)
  {
    && |r| == 20
    && r[..2] == dd && r[2] == '.' && r[3..5] == mm && r[5] == '.'
    && r[6..10] == yyyy && r[10] == '.' && r[11] == ' '
    && r[12..14] == hh && r[14] == ':' && r[15..17] == mi && r[17] == ':' && r[18..] == ss
  }

  /** For a real date and time with a four-digit year the long form has 20
      characters, each field in its place and padded to two digits. */
  lemma FormatDateFields(day: nat, month0: nat, year: nat, hours: nat, minutes: nat, seconds: nat)
    requires 1 <= day <= 31 && month0 < 12 && 1000 <= year <= 9999
    requires hours < 24 && minutes < 60 && seconds < 60
    ensures DateLayout(FormatDate(day, month0, year, hours, minutes, seconds),
                       Pad2(day), Pad2(month0 + 1), NatToString(year), Pad2(hours), Pad2(minutes), Pad2(seconds))
  {
    FourDigitYear(year);
    DateForm(day, month0, year, hours, minutes, seconds);
    TwoDigits(day, month0 + 1, hours, minutes, seconds);
    SliceDate(FormatDate(day, month0, year, hours, minutes, seconds),
              Pad2(day), Pad2(month0 + 1), NatToString(year), Pad2(hours), Pad2(minutes), Pad2(seconds));
  }

  lemma FourDigitYear(year: nat)
    requires 1000 <= year <= 9999
    ensures |NatToString(year)| == 4
  {
    DigitsAbove(year, 3);
    DigitsBelow(year, 4);
  }

  lemma DateForm(day: nat, month0: nat, year: nat, hours: nat, minutes: nat, seconds: nat)
    ensures FormatDate(day, month0, year, hours, minutes, seconds) ==
      Pad2(day) + "." + Pad2(month0 + 1) + "." + NatToString(year) + ". "
        + Pad2(hours) + ":" + Pad2(minutes) + ":" + Pad2(seconds)
  {
  }

  lemma TwoDigits(a: nat, b: nat, c: nat, d: nat, e: nat)
    requires a < 100 && b < 100 && c < 100 && d < 100 && e < 100
    ensures |Pad2(a)| == 2 && |Pad2(b)| == 2 && |Pad2(c)| == 2 && |Pad2(d)| == 2 && |Pad2(e)| == 2
  {
  }

  lemma SliceDate(r: string, dd: string, mm: string, yyyy: string, hh: string, mi: string, ss: string)
    requires |dd| == 2 && |mm| == 2 && |yyyy| == 4 && |hh| == 2 && |mi| == 2 && |ss| == 2
    requires r == dd + "." + mm + "." + yyyy + ". " + hh + ":" + mi + ":" + ss
    ensures DateLayout(r, dd, mm, yyyy, hh, mi, ss)
  {
    var short := dd + "." + mm + "." + yyyy + ".";
    var time := hh + ":" + mi + ":" + ss;
    Regroup(dd, mm, yyyy, hh, mi, ss);
    SliceShort(short, dd, mm, yyyy);
    SliceTime(time, hh, mi, ss);
    SplitAt(short, time);
  }

  lemma SliceShort(r: string, dd: string, mm: string, yyyy: string)
    requires |dd| == 2 && |mm| == 2 && |yyyy| == 4
    requires r == dd + "." + mm + "." + yyyy + "."
    ensures |r| == 11 && r[..2] == dd && r[2] == '.' && r[3..5] == mm && r[5] == '.' && r[6..10] == yyyy && r[10] == '.'
  {
    assert r == dd + ("." + (mm + ("." + (yyyy + "."))));
    assert r[3..] == mm + ("." + (yyyy + "."));
    assert r[6..] == yyyy + ".";
  }

  lemma SliceTime(r: string, hh: string, mi: string, ss: string)
    requires |hh| == 2 && |mi| == 2 && |ss| == 2
    requires r == hh + ":" + mi + ":" + ss
    ensures |r| == 8 && r[..2] == hh && r[2] == ':' && r[3..5] == mi && r[5] == ':' && r[6..] == ss
  {
    assert r == hh + (":" + (mi + (":" + ss)));
    assert r[3..] == mi + (":" + ss);
  }
}
