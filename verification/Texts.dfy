/** Decimal numerals and joined lists, as template strings and Array.join write them. */
module Texts {

  function Digit(d: nat): char
    requires d < 10
  {
    ['0', '1', '2', '3', '4', '5', '6', '7', '8', '9'][d]
  }

  predicate AreDigits(text: string) {
    forall i :: 0 <= i < |text| ==> '0' <= text[i] <= '9'
  }

  function Decimal(n: nat): (text: string)
    ensures text != [] && AreDigits(text)
  {
    if n < 10 then [Digit(n)] else Decimal(n / 10) + [Digit(n % 10)]
  }

  function Number(text: string): nat
    requires AreDigits(text)
  {
    if text == [] then 0
    else 10 * Number(text[..|text| - 1]) + (text[|text| - 1] as int - '0' as int)
  }

  lemma {:induction false} DecimalReads(n: nat)
    ensures Number(Decimal(n)) == n
  {
    if n < 10 {
      assert Decimal(n)[..0] == [];
    } else {
      DecimalReads(n / 10);
      assert Decimal(n)[..|Decimal(n)| - 1] == Decimal(n / 10);
    }
  }

  lemma DecimalIsOneToOne(m: nat, n: nat)
    ensures Decimal(m) == Decimal(n) ==> m == n
  {
    DecimalReads(m);
    DecimalReads(n);
  }

  function Join(parts: seq<string>, separator: string): string {
    if parts == [] then ""
    else if |parts| == 1 then parts[0]
    else Join(parts[..|parts| - 1], separator) + separator + parts[|parts| - 1]
  }

  // Where both tails are free of the character, the last one splits a text in one way only.
  lemma LastSplit(left: string, right: string, otherLeft: string, otherRight: string, c: char)
    requires c !in right && c !in otherRight
    requires left + [c] + right == otherLeft + [c] + otherRight
    ensures left == otherLeft && right == otherRight
  {
    var text := left + [c] + right;
    assert text[|left|] == c && text[|otherLeft|] == c;
    assert forall k :: |left| < k < |text| ==> text[k] == right[k - |left| - 1];
    assert forall k :: |otherLeft| < k < |text| ==> text[k] == otherRight[k - |otherLeft| - 1];
    assert |left| == |otherLeft|;
    assert left == text[..|left|] && right == text[|left| + 1..];
  }

  predicate ArePlain(parts: seq<string>, c: char) {
    forall i :: 0 <= i < |parts| ==> parts[i] != "" && c !in parts[i]
  }

  lemma JoinedMarks(parts: seq<string>, c: char)
    requires ArePlain(parts, c)
    ensures Join(parts, [c]) == "" <==> parts == []
    ensures c in Join(parts, [c]) <==> |parts| >= 2
  {
    if |parts| >= 2 {
      var n := |parts| - 1;
      assert Join(parts, [c])[|Join(parts[..n], [c])|] == c;
    }
  }

  // Parts without the separating character, none empty, can be read back from the joined text.
  lemma {:induction false} JoinIsOneToOne(parts: seq<string>, other: seq<string>, c: char)
    requires ArePlain(parts, c) && ArePlain(other, c) && Join(parts, [c]) == Join(other, [c])
    ensures parts == other
    decreases |parts|
  {
    JoinedMarks(parts, c);
    JoinedMarks(other, c);
    if |parts| >= 2 {
      var n, m := |parts| - 1, |other| - 1;
      LastSplit(Join(parts[..n], [c]), parts[n], Join(other[..m], [c]), other[m], c);
      JoinIsOneToOne(parts[..n], other[..m], c);
      assert parts == parts[..n] + [parts[n]] && other == other[..m] + [other[m]];
    }
  }
}
