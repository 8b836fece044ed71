/**
  The voter roll: the seventeen odd house numbers 101 to 133 that may vote, and the
  eligibility test applied to the text typed into the house-number field.
*/
module Roll {
  import opened Wrappers
  import opened JsNumbers

  /** The roll, listed number by number as the page lists it. */
  const ValidHouseNumbers: seq<int> :=
    [101, 103, 105, 107, 109, 111, 113, 115, 117, 119, 121, 123, 125, 127, 129, 131, 133]

  /** The roll has no house number twice. */
  predicate NoDuplicates(s: seq<int>) {
    forall i, j :: 0 <= i < j < |s| ==> s[i] != s[j]
  }

  /** Exact membership of the parsed number in the roll; text that parses to NaN never passes. */
  predicate IsValidHouseNumber(number: string) {
    match ParseInt(number)
    case None => false
    case Some(n) => n in ValidHouseNumbers
  }

  /** Position k of the roll holds 101 + 2k. */
  lemma RollEntries()
    ensures |ValidHouseNumbers| == 17
    ensures forall k :: 0 <= k < 17 ==> ValidHouseNumbers[k] == 101 + 2 * k
  {
  }

  /** The listed roll is exactly the odd numbers from 101 to 133. */
  lemma OnRollIffOddInRange(n: int)
    ensures n in ValidHouseNumbers <==> 101 <= n <= 133 && n % 2 == 1
  {
    RollEntries();
    if 101 <= n <= 133 && n % 2 == 1 {
      var k := (n - 101) / 2;
      assert ValidHouseNumbers[k] == n;
    }
  }

  /**
    A house number is accepted exactly when its text parses to an odd number from 101
    to 133; unparseable text is refused.
  */
  lemma IsValidHouseNumberIff(number: string)
    ensures IsValidHouseNumber(number) <==>
      exists n :: ParseInt(number) == Some(n) && 101 <= n <= 133 && n % 2 == 1
  {
    if ParseInt(number).Some? {
      OnRollIffOddInRange(ParseInt(number).value);
    }
  }

  /** The roll holds seventeen distinct numbers. */
  lemma RollSize()
    ensures |ValidHouseNumbers| == 17
    ensures NoDuplicates(ValidHouseNumbers)
    ensures |set n | n in ValidHouseNumbers| == 17
  {
    RollEntries();
    DistinctElements(ValidHouseNumbers);
  }

  /** A sequence without duplicates has as many distinct elements as it has positions. */
  lemma {:induction false} DistinctElements(s: seq<int>)
    requires NoDuplicates(s)
    ensures |set n | n in s| == |s|
  {
    if s != [] {
      var t := s[..|s| - 1];
      assert NoDuplicates(t);
      DistinctElements(t);
      assert (set n | n in s) == (set n | n in t) + {s[|s| - 1]};
      assert s[|s| - 1] !in t;
    }
  }

  /**
    What matters is the number parseInt reads: a roll number is accepted with leading
    white space before it and with any text after it that does not continue the digits
    ("  101", "101abc", "101.5", "101x").
  */
  lemma RollNumberTextAccepted(n: int, ws: string, rest: string)
    requires n in ValidHouseNumbers
    requires forall i :: 0 <= i < |ws| ==> IsWhiteSpace(ws[i])
    requires rest == [] || !IsDecimalDigit(rest[0])
    ensures n >= 0 && IsValidHouseNumber(ws + NatToString(n) + rest)
  {
    OnRollIffOddInRange(n);
    var digits := NatToString(n);
    assert ws + digits + rest == ws + (digits + rest);
    ParseIntSkipsWhiteSpace(ws, digits + rest);
    ParseNatToString(n, rest);
  }

  /** The first number on the roll is accepted. */
  lemma FirstOnRollAccepted()
    ensures IsValidHouseNumber("101")
  {
    Parse101();
  }

  /**
    The min="101" and max="133" attributes of the input field are not the rule: an even
    number inside that range is refused.
  */
  lemma EvenInRangeRefused()
    ensures !IsValidHouseNumber("102")
  {
    Parse102();
    OnRollIffOddInRange(102);
  }

  /** Text without digits parses to NaN and is refused. */
  lemma UnparseableRefused()
    ensures !IsValidHouseNumber("") && !IsValidHouseNumber("abc")
  {
    assert TrimStart("abc") == "abc";
    assert DigitPrefix("abc", 10) == [];
  }
}
