/** The text helpers of the performance microservice's PDF report: the
    transliteration of Serbian Latin letters to ASCII and the algorithm's
    name. Its `formatDate` is the same as the fiscal receipt's one, modelled
    by `ReceiptPdf.FormatDate`. */
module PerformancePdf {

  /** The ten letters the report replaces. */
  predicate Serbian(c: char)
  {
    c == '\U{010D}' || c == '\U{0107}' || c == '\U{017E}' || c == '\U{0161}' || c == '\U{0111}' ||
    c == '\U{010C}' || c == '\U{0106}' || c == '\U{017D}' || c == '\U{0160}' || c == '\U{0110}'
  }

  /** The replacement table: the letter without its diacritic, keeping its case. */
  function AsciiChar(c: char): (r: char)
    ensures !Serbian(r)
    ensures !Serbian(c) ==> r == c
    ensures (c == '\U{010D}' || c == '\U{0107}') <==> r == 'c' && c != 'c'
    ensures (c == '\U{010C}' || c == '\U{0106}') <==> r == 'C' && c != 'C'
    ensures c == '\U{017E}' <==> r == 'z' && c != 'z'
    ensures c == '\U{017D}' <==> r == 'Z' && c != 'Z'
    ensures c == '\U{0161}' <==> r == 's' && c != 's'
    ensures c == '\U{0160}' <==> r == 'S' && c != 'S'
    ensures c == '\U{0111}' <==> r == 'd' && c != 'd'
    ensures c == '\U{0110}' <==> r == 'D' && c != 'D'
  {
    match c
    case '\U{010D}' => 'c'
    case '\U{0107}' => 'c'
    case '\U{010C}' => 'C'
    case '\U{0106}' => 'C'
    case '\U{017E}' => 'z'
    case '\U{017D}' => 'Z'
    case '\U{0161}' => 's'
    case '\U{0160}' => 'S'
    case '\U{0111}' => 'd'
    case '\U{0110}' => 'D'
    case _ => c
  }

  /** `toAscii`: every occurrence of the ten letters replaced, all else kept. */
  function ToAscii(text: string): string
  {
    if text == [] then [] else ToAscii(text[..|text| - 1]) + [AsciiChar(text[|text| - 1])]
  }

  /** The replacement is character by character: same length, and each
      position holds the image of the original character. */
  lemma {:induction false} ToAsciiPointwise(text: string)
    ensures |ToAscii(text)| == |text|
    ensures forall i :: 0 <= i < |text| ==> ToAscii(text)[i] == AsciiChar(text[i])
  {
    if text != [] {
      var init := text[..|text| - 1];
      ToAsciiPointwise(init);
      assert forall i :: 0 <= i < |init| ==> text[i] == init[i];
    }
  }

  /** No Serbian letter survives. */
  lemma ToAsciiClean(text: string)
    ensures forall i :: 0 <= i < |ToAscii(text)| ==> !Serbian(ToAscii(text)[i])
  {
    ToAsciiPointwise(text);
  }

  /** Text without those letters is returned unchanged. */
  lemma ToAsciiKeeps(text: string)
    requires forall i :: 0 <= i < |text| ==> !Serbian(text[i])
    ensures ToAscii(text) == text
  {
    ToAsciiPointwise(text);
  }

  /** Transliterating twice is transliterating once. */
  lemma ToAsciiIdempotent(text: string)
    ensures ToAscii(ToAscii(text)) == ToAscii(text)
  {
    ToAsciiClean(text);
    ToAsciiKeeps(ToAscii(text));
  }

  /** Transliteration of a concatenation, such as a label followed by a
      value in the report, is the concatenation of the transliterations. */
  lemma {:induction false} ToAsciiAppend(a: string, b: string)
    ensures ToAscii(a + b) == ToAscii(a) + ToAscii(b)
  {
    if b != [] {
      var b' := b[..|b| - 1];
      assert (a + b)[..|a + b| - 1] == a + b';
      ToAsciiAppend(a, b');
    } else {
      assert a + b == a;
    }
  }

  /** `getAlgorithmName`. */
  function AlgorithmName(algorithmType: string): (r: string)
    ensures algorithmType == "DISTRIBUTIVE_CENTER" ==> r == "Distributivni Centar Skladista"
    ensures algorithmType == "WAREHOUSE_CENTER" ==> r == "Magacinski Centar Skladista"
    ensures algorithmType != "DISTRIBUTIVE_CENTER" && algorithmType != "WAREHOUSE_CENTER" ==> r == algorithmType
  {
    match algorithmType
    case "DISTRIBUTIVE_CENTER" => "Distributivni Centar Skladista"
    case "WAREHOUSE_CENTER" => "Magacinski Centar Skladista"
    case _ => algorithmType
  }

  predicate IsAlgorithmLabel(s: string)
  {
    s == "Distributivni Centar Skladista" || s == "Magacinski Centar Skladista"
  }

  /** Distinct algorithm types print distinct names, unless a type is itself
      spelled like one of the two names. */
  lemma AlgorithmNameInjective(a: string, b: string)
    requires !IsAlgorithmLabel(a) && !IsAlgorithmLabel(b)
    requires AlgorithmName(a) == AlgorithmName(b)
    ensures a == b
  {
  }
}
