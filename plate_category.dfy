/** The odd/even classifier: a plate is "Genap" (even) or "Ganjil" (odd) by the
    parity of the last digit in its recognised text. */
module PlateCategory {
  import opened PlateText
  import opened Wrappers

  const NoNumber := "No Number"
  const Genap := "Genap"
  const Ganjil := "Ganjil"
  const Invalid := "Invalid"

  /** int() of a one-character string; None where int() would raise ValueError. */
  function DigitValue(c: char): (v: Option<nat>)
    ensures v.Some? <==> IsDigit(c)
    ensures v.Some? ==> v.value < 10 && c == ('0' as int + v.value) as char
  {
    if IsDigit(c) then Some(c as int - '0' as int) else None
  }

  /** get_plate_category. The match on DigitValue keeps the source's defensive
      "Invalid" branch; the contract shows it is never taken. */
  function GetPlateCategory(plate: string): (r: string)
    ensures r == "" <==> plate == []
    ensures r == "" || r == NoNumber || r == Genap || r == Ganjil
  {
    if plate == [] then ""
    else
      var digits := Digits(plate);
      if digits == [] then NoNumber
      else
        match DigitValue(digits[|digits| - 1])
        case Some(d) => if d % 2 == 0 then Genap else Ganjil
        case None => Invalid
  }

  /** A non-empty text without digits is "No Number", and only such text is. */
  lemma CategoryNoNumber(plate: string)
    ensures GetPlateCategory(plate) == NoNumber <==>
            plate != [] && forall i :: 0 <= i < |plate| ==> !IsDigit(plate[i])
  {
    DigitsEmpty(plate);
  }

  /** With s[i] the last digit of the text, the category is its parity. */
  lemma CategoryParity(plate: string, i: nat)
    requires i < |plate| && IsDigit(plate[i])
    requires forall j :: i < j < |plate| ==> !IsDigit(plate[j])
    ensures GetPlateCategory(plate) ==
            if (plate[i] as int - '0' as int) % 2 == 0 then Genap else Ganjil
  {
    LastDigit(plate, i);
  }

  lemma CategoryExampleEven()
    ensures GetPlateCategory("B1234XYZ") == Genap
  {
    CategoryParity("B1234XYZ", 4);
  }

  lemma CategoryExampleDepok()
    ensures GetPlateCategory("B1234ZZZ") == Genap
  {
    CategoryParity("B1234ZZZ", 4);
  }

  lemma CategoryExampleOdd()
    ensures GetPlateCategory("H123AB") == Ganjil
  {
    CategoryParity("H123AB", 3);
  }

  lemma CategoryExampleLetters()
    ensures GetPlateCategory("ABC") == NoNumber
  {
    CategoryNoNumber("ABC");
  }
}
