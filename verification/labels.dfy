/** Dropdown labels of the order page.

    Every supplier and drug choice is shown as "<id> - <name>", and the id is
    recovered by taking the text before the first " - " and reading it as a
    decimal integer. The revision form adds the sentinel choice "None". */
module Labels {
  import opened Wrappers

  /** Text placed between an id and its display name. */
  const Separator: string := " - "

  /** The choice that means "no drug selected" on the revision form. */
  const NoneChoice: string := "None"

  predicate IsDigit(c: char) {
    '0' <= c <= '9'
  }

  predicate AllDigits(s: string) {
    forall i :: 0 <= i < |s| ==> IsDigit(s[i])
  }

  /** Characters that can appear in a rendered integer. */
  predicate IsNumeral(c: char) {
    c == '-' || IsDigit(c)
  }

  function DigitChar(d: nat): (c: char)
    requires d < 10
    ensures IsDigit(c)
  {
    ((('0' as int) + d) as char)
  }

  function DigitValue(c: char): (d: nat)
    requires IsDigit(c)
    ensures d < 10
  {
    (c as int) - ('0' as int)
  }

  /** Decimal rendering of a natural number, most significant digit first. */
  function NatToString(n: nat): (s: string)
    ensures |s| > 0 && AllDigits(s)
  {
    if n < 10 then [DigitChar(n)] else NatToString(n / 10) + [DigitChar(n % 10)]
  }

  /** Python's str() of an int: a leading '-' for negative numbers. */
  function IntToString(n: int): (s: string)
    ensures |s| > 0
    ensures forall i :: 0 <= i < |s| ==> IsNumeral(s[i])
  {
    if n < 0 then "-" + NatToString(-n) else NatToString(n)
  }

  /** Value of a string of decimal digits (the empty string reads as 0). */
  function ParseNat(s: string): nat
    requires AllDigits(s)
  {
    if s == [] then 0 else 10 * ParseNat(s[..|s| - 1]) + DigitValue(s[|s| - 1])
  }

  /** Python's int() on a string: an optional sign followed by at least one
      decimal digit; anything else raises, modelled as None. */
  function ParseInt(s: string): Option<int> {
    if |s| > 1 && s[0] == '-' && AllDigits(s[1..]) then Some(-(ParseNat(s[1..]) as int))
    else if |s| > 1 && s[0] == '+' && AllDigits(s[1..]) then Some(ParseNat(s[1..]))
    else if |s| > 0 && AllDigits(s) then Some(ParseNat(s))
    else None
  }

  predicate SeparatorAt(s: string, i: nat) {
    && i + |Separator| <= |s|
    && forall j :: 0 <= j < |Separator| ==> s[i + j] == Separator[j]
  }

  /** A separator at position i of `s` is one at i - 1 of its tail. */
  lemma SeparatorAtTail(s: string)
    requires |s| > 0
    ensures forall i :: 1 <= i < |s| ==> SeparatorAt(s, i) == SeparatorAt(s[1..], i - 1)
  {
  }

  /** `s.split(" - ")[0]`: the text before the first separator, or all of `s`
      when the separator does not occur. */
  function FirstPiece(s: string): (head: string)
    ensures head <= s
    ensures forall i :: 0 <= i < |head| ==> !SeparatorAt(s, i)
    ensures |head| < |s| ==> SeparatorAt(s, |head|)
  {
    if |s| < |Separator| then s
    else if s[..|Separator|] == Separator then ""
    else
      var rest := FirstPiece(s[1..]);
      SeparatorAtTail(s);
      [s[0]] + rest
  }

  /** The label the page builds for a row (id, name). */
  function FormatLabel(id: int, name: string): string {
    IntToString(id) + Separator + name
  }

  /** `int(label.split(" - ")[0])`; None where Python would raise. */
  function ParseLabel(text: string): Option<int> {
    ParseInt(FirstPiece(text))
  }

  lemma {:induction false} ParseNatOfNatToString(n: nat)
    ensures ParseNat(NatToString(n)) == n
  {
    var s := NatToString(n);
    if n >= 10 {
      ParseNatOfNatToString(n / 10);
      assert s[..|s| - 1] == NatToString(n / 10);
    }
  }

  /** Reading back a rendered integer gives the integer. */
  lemma ParseIntOfIntToString(n: int)
    ensures ParseInt(IntToString(n)) == Some(n)
  {
    if n < 0 {
      ParseNatOfNatToString(-n);
      assert IntToString(n)[1..] == NatToString(-n);
    } else {
      ParseNatOfNatToString(n);
    }
  }

  /** The first piece of a formatted label is exactly the rendered id, for any
      name, even one that itself contains the separator. */
  lemma FirstPieceOfLabel(id: int, name: string)
    ensures FirstPiece(FormatLabel(id, name)) == IntToString(id)
  {
    var d := IntToString(id);
    var s := FormatLabel(id, name);
    var h := FirstPiece(s);
    assert SeparatorAt(s, |d|) by {
      assert forall j :: 0 <= j < |Separator| ==> s[|d| + j] == Separator[j];
    }
    assert forall i :: 0 <= i < |d| ==> !SeparatorAt(s, i) by {
      forall i | 0 <= i < |d|
        ensures !SeparatorAt(s, i)
      {
        assert s[i] == d[i];
        assert IsNumeral(s[i]);
      }
    }
    assert |h| == |d|;
    assert h == s[..|h|];
    assert s[..|d|] == d;
  }

  /** Parsing a label the page formatted recovers the id (lines 43, 47, 311
      build; 122-125 and 351-369 parse). */
  lemma LabelRoundTrip(id: int, name: string)
    ensures ParseLabel(FormatLabel(id, name)) == Some(id)
  {
    FirstPieceOfLabel(id, name);
    ParseIntOfIntToString(id);
  }

  /** The "None" sentinel never coincides with a real label, and would not
      parse if it were ever read as one. */
  lemma NoneChoiceIsNotALabel(id: int, name: string)
    ensures FormatLabel(id, name) != NoneChoice
    ensures ParseLabel(NoneChoice) == None
  {
    var s := FormatLabel(id, name);
    assert s[0] == IntToString(id)[0];
    assert IsNumeral(s[0]);
    assert NoneChoice[0] == 'N';
    assert FirstPiece(NoneChoice) == NoneChoice;
    assert !IsDigit(NoneChoice[0]);
  }
}
