/**
 * Decoding of a one-way kanban QR code (`src/utils/GenerateOneWayKanban.ts`).
 * The code is read by position:
 *   0..14  part number, padded with spaces and possibly ending in a revision `A`
 *   15     unused
 *   16..21 quantity per kanban, zero padded
 *   22     warehouse code
 *   23..   unique code
 * and the "date" getter returns characters 0..6, which overlap the part number.
 */
module Kanban {
  import opened Wrappers
  import opened JsString

  /** The length of a well-formed kanban code, as the scanner screen demands it. */
  const QrLength := 30

  /** `s` with every `'0'` removed and the other characters kept in order. */
  function DropZeros(s: string): (r: string)
    ensures |r| <= |s|
    ensures forall i :: 0 <= i < |r| ==> r[i] != '0'
  {
    if s == [] then []
    else
      var init, last := s[..|s| - 1], s[|s| - 1];
      DropZeros(init) + (if last == '0' then [] else [last])
  }

  /** Dropping zeros keeps every other character with its multiplicity. */
  lemma {:induction false} DropZerosKeepsOthers(s: string)
    ensures multiset(DropZeros(s)) == multiset(s)['0' := 0]
  {
    if s != [] {
      var init, last := s[..|s| - 1], s[|s| - 1];
      assert s == init + [last];
      DropZerosKeepsOthers(init);
    }
  }

  /** Appending one character extends the result by that character unless it is a zero. */
  lemma DropZerosSnoc(s: string, c: char)
    ensures c == '0' ==> DropZeros(s + [c]) == DropZeros(s)
    ensures c != '0' ==> DropZeros(s + [c]) == DropZeros(s) + [c]
  {
    assert (s + [c])[..|s|] == s;
  }

  /** Removing zeros commutes with concatenation, so the kept characters stay in order. */
  lemma {:induction false} DropZerosAppend(a: string, b: string)
    ensures DropZeros(a + b) == DropZeros(a) + DropZeros(b)
  {
    if b != [] {
      var b', last := b[..|b| - 1], b[|b| - 1];
      assert (a + b)[..|a + b| - 1] == a + b';
      DropZerosAppend(a, b');
    } else {
      assert a + b == a;
    }
  }

  /** The decoder for one scanned code; the getters below read only `qr`. */
  datatype OneWayKanban = OneWayKanban(qr: string) {

    /** `getDate`: the first seven characters (all of a shorter code). */
    function Date(): (r: string)
      ensures |r| == Min(7, |qr|) && r == qr[..|r|]
    {
      Substring(qr, 0, 7)
    }

    /** `getWhCode`: the single character at index 22, or `""` for a shorter code. */
    function WhCode(): (r: string)
      ensures |qr| >= 23 ==> r == [qr[22]]
      ensures |qr| <= 22 ==> r == []
    {
      Substring(qr, 22, 23)
    }

    /** `getUniqueCode`: everything from index 23 on; it completes the code again. */
    function UniqueCode(): (r: string)
      ensures Substring(qr, 0, 23) + r == qr
      ensures |r| == Max(|qr| - 23, 0)
    {
      SubstringFrom(qr, 23)
    }

    /** `getTotalPartNumber`: the first fifteen characters, trimmed. */
    function TotalPartNumber(): (r: string)
      ensures |r| <= 15
      ensures r == [] || (!IsWhitespace(r[0]) && !IsWhitespace(r[|r| - 1]))
    {
      var field := Substring(qr, 0, 15);
      assert |field| <= 15;
      var r := Trim(field);
      assert |r| <= 15;
      r
    }

    /** `getPartNumber`: the trimmed part number with one trailing revision `A` cut off. */
    function PartNumber(): (r: string)
      ensures var t := TotalPartNumber(); r + (if |r| < |t| then "A" else "") == t
      ensures var t := TotalPartNumber(); |r| < |t| <==> t != [] && t[|t| - 1] == 'A'
    {
      var t := TotalPartNumber();
      if |t| > 0 && t[|t| - 1] == 'A' then
        var r := t[..|t| - 1];
        assert r + "A" == t;
        r
      else
        assert t + "" == t;
        t
    }

    /** The six characters of the quantity field. */
    function QtyField(): (r: string)
      ensures |qr| >= 22 ==> r == qr[16..22]
      ensures |r| <= 6
    {
      Substring(qr, 16, 22)
    }

    /** The quantity `getQtyPerKanban` returns: the field with its zeros dropped, read by
        `parseInt`; `None` stands for `NaN`. */
    function Qty(): (r: Option<int>)
      ensures DropZeros(QtyField()) == [] ==> r == None
    {
      ParseInt(DropZeros(QtyField()))
    }

    /** `getQtyPerKanban`: drop the zeros of the quantity field, then `parseInt`. */
    method QtyPerKanban() returns (q: Option<int>)
      ensures q == Qty()
    {
      var newQty := WithoutZeros(Substring(qr, 16, 22));
      q := ParseInt(newQty);
    }
  }

  /** The loop of `getQtyPerKanban`: append every character of `field` that is not
      `'0'` to an initially empty string. */
  method WithoutZeros(field: string) returns (newQty: string)
    ensures newQty == DropZeros(field)
  {
    newQty := "";
    var index := 0;
    while index < |field|
      invariant 0 <= index <= |field|
      invariant newQty == DropZeros(field[..index])
    {
      assert field[..index + 1] == field[..index] + [field[index]];
      DropZerosSnoc(field[..index], field[index]);
      if field[index] != '0' {
        newQty := newQty + [field[index]];
      }
      index := index + 1;
    }
    assert field[..index] == field;
  }

  /** The part number is a contiguous piece of the first fifteen characters, and what
      trimming cut off around it is whitespace. */
  lemma TotalPartNumberWithinField(k: OneWayKanban)
    ensures IsInfix(k.TotalPartNumber(), k.qr[..Min(15, |k.qr|)])
    ensures var field := k.qr[..Min(15, |k.qr|)];
      var start := |field| - |TrimStart(field)|;
      && IsInfixAt(k.TotalPartNumber(), field, start)
      && AllWhitespace(field[..start])
      && AllWhitespace(field[start + |k.TotalPartNumber()|..])
  {
    var field := Substring(k.qr, 0, 15);
    assert field == k.qr[..Min(15, |k.qr|)];
    TrimCutsOnlyWhitespace(field);
    assert IsInfixAt(k.TotalPartNumber(), field, |field| - |TrimStart(field)|);
  }

  /** Only characters 16..21 decide the quantity: overwriting any other position of
      the code leaves it as it was. */
  lemma QtyIgnoresOtherPositions(k: OneWayKanban, i: nat, c: char)
    requires i < |k.qr| && (i < 16 || 22 <= i)
    ensures OneWayKanban(k.qr[i := c]).QtyField() == k.QtyField()
    ensures OneWayKanban(k.qr[i := c]).Qty() == k.Qty()
  {
    var k' := OneWayKanban(k.qr[i := c]);
    assert |k'.QtyField()| == |k.QtyField()|;
    forall j | 0 <= j < |k.QtyField()| ensures k'.QtyField()[j] == k.QtyField()[j] {
      assert 16 + j != i;
    }
  }

  /** An all-zero quantity field leaves nothing for `parseInt`: the quantity is `NaN`. */
  lemma QtyOfAllZeros(k: OneWayKanban)
    requires |k.qr| >= 22
    requires forall j :: 16 <= j < 22 ==> k.qr[j] == '0'
    ensures DropZeros(k.QtyField()) == []
    ensures k.Qty() == None
  {
    DropZerosOfZeros(k.QtyField());
  }

  lemma {:induction false} DropZerosOfZeros(s: string)
    requires forall i :: 0 <= i < |s| ==> s[i] == '0'
    ensures DropZeros(s) == []
  {
    if s != [] {
      DropZerosOfZeros(s[..|s| - 1]);
    }
  }

  /** For a field of decimal digits that is not all zeros, the quantity is the decimal
      value of the field once every zero is deleted: a positive number of at most six
      digits. Zeros inside the number are lost along with the padding. */
  lemma QtyOfDigits(k: OneWayKanban)
    requires |k.qr| >= 22
    requires forall j :: 16 <= j < 22 ==> IsDecimalDigit(k.qr[j])
    requires exists j :: 16 <= j < 22 && k.qr[j] != '0'
    ensures k.Qty() == Some(DecimalValue(DropZeros(k.QtyField())) as int)
    ensures 1 <= k.Qty().value <= 999999
  {
    var f := k.QtyField();
    var d := DropZeros(f);
    DropZerosKeepsOthers(f);
    forall i | 0 <= i < |d| ensures IsDecimalDigit(d[i]) {
      assert multiset(d)[d[i]] > 0;
      assert d[i] in f;
    }
    var j :| 16 <= j < 22 && k.qr[j] != '0';
    var c := f[j - 16];
    assert c in multiset(f);
    assert multiset(d)[c] == multiset(f)[c];
    assert d != [];
    ParseIntOfDigits(d);
    PositiveWithoutZeros(d);
    SixDigitsBound(d);
  }

  lemma PositiveWithoutZeros(s: string)
    requires s != [] && AllDecimalDigits(s)
    requires forall i :: 0 <= i < |s| ==> s[i] != '0'
    ensures DecimalValue(s) >= 1
  {
    assert DigitValue(s[|s| - 1], 10).value >= 1;
  }

  lemma SixDigitsBound(s: string)
    requires AllDecimalDigits(s) && |s| <= 6
    ensures DecimalValue(s) <= 999999
  {
    DigitsBound(s);
    assert Pow10(|s|) <= Pow10(6) by { Pow10Monotone(|s|, 6); }
  }

  /** The quantity field `000120` decodes to 12, not 120. */
  lemma EmbeddedZeroIsLost(k: OneWayKanban)
    requires |k.qr| >= 22 && k.qr[16..22] == "000120"
    ensures k.Qty() == Some(12)
  {
    var f := k.QtyField();
    assert f == ['0', '0', '0', '1', '2', '0'];
    DropZerosOfField(f);
    ParseIntOfDigits(['1', '2']);
    ValueOfTwelve();
  }

  lemma DropZerosOfField(f: string)
    requires f == ['0', '0', '0', '1', '2', '0']
    ensures DropZeros(f) == ['1', '2']
  {
    assert f[..0] == [];
    assert f[..1] == f[..0] + [f[0]];
    DropZerosSnoc(f[..0], f[0]);
    assert DropZeros(f[..1]) == [];
    assert f[..2] == f[..1] + [f[1]];
    DropZerosSnoc(f[..1], f[1]);
    assert DropZeros(f[..2]) == [];
    assert f[..3] == f[..2] + [f[2]];
    DropZerosSnoc(f[..2], f[2]);
    assert DropZeros(f[..3]) == [];
    assert f[..4] == f[..3] + [f[3]];
    DropZerosSnoc(f[..3], f[3]);
    assert DropZeros(f[..4]) == ['1'];
    assert f[..5] == f[..4] + [f[4]];
    DropZerosSnoc(f[..4], f[4]);
    assert DropZeros(f[..5]) == ['1', '2'];
    assert f[..6] == f[..5] + [f[5]];
    DropZerosSnoc(f[..5], f[5]);
    assert DropZeros(f[..6]) == ['1', '2'];
    assert f[..6] == f;
  }

  lemma ValueOfTwelve()
    ensures DecimalValue(['1', '2']) == 12
  {
    assert ['1', '2'][..1] == ['1'] && ['1'][..0] == [];
    assert DigitValue('1', 10) == Some(1) && DigitValue('2', 10) == Some(2);
  }
}
