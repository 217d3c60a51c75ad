/** Plates resolved against the static table. Each fact about a literal plate is proved
    on its own and then combined, which keeps every proof small. */
module RegionExamples {
  import opened Wrappers
  import opened PlateText
  import opened Region
  import opened RegionTable

  lemma CleanBL()
    ensures Sanitize("BL1234AX") == "BL1234AX"
  {
    AllKeptSound("BL1234AX");
    SanitizeOfClean("BL1234AX");
  }

  lemma ShapeBL()
    ensures ChosenPrefix("BL1234AX", DetailedCodes, Two('B', 'L'))
    ensures PairAt("BL1234AX", 6) && forall m :: 0 <= m < 6 ==> !PairAt("BL1234AX", m)
    ensures DetailedCodes(Two('B', 'L')).value.suffix("BL1234AX"[6]) == Some("Kota Banda Aceh")
  {
  }

  /** "BL1234AX" resolves through the two-letter prefix BL, although B is a key too. */
  lemma ExampleTwoLetterPrefix()
    ensures Resolve("BL1234AX", DetailedCodes) == "Kota Banda Aceh"
  {
    CleanBL();
    ShapeBL();
    ResolveCleanTo("BL1234AX", DetailedCodes, Two('B', 'L'), 6, "Kota Banda Aceh");
  }

  lemma UpperBL()
    ensures Upper("bl1234ax") == "BL1234AX"
  {
    var s := "bl1234ax";
    assert forall i :: 0 <= i < |s| ==> Upper(s)[i] == "BL1234AX"[i];
  }

  /** `.upper()` first: the lower-case "bl1234ax" resolves like "BL1234AX". */
  lemma ExampleLowerCase()
    ensures Resolve("bl1234ax", DetailedCodes) == "Kota Banda Aceh"
  {
    UpperBL();
    ResolveIgnoresCase("bl1234ax", DetailedCodes);
    ExampleTwoLetterPrefix();
  }

  lemma CleanKAB()
    ensures Sanitize("B1234KAB") == "B1234KAB"
  {
    AllKeptSound("B1234KAB");
    SanitizeOfClean("B1234KAB");
  }

  lemma ShapeKAB()
    ensures ChosenPrefix("B1234KAB", DetailedCodes, One('B'))
    ensures PairAt("B1234KAB", 5) && forall m :: 0 <= m < 5 ==> !PairAt("B1234KAB", m)
    ensures DetailedCodes(One('B')).value.suffix("B1234KAB"[5]) == Some("Kota Bekasi")
  {
  }

  /** "B1234KAB": the first letter after the digits is K. */
  lemma ExampleSuffixLetter()
    ensures Resolve("B1234KAB", DetailedCodes) == "Kota Bekasi"
  {
    CleanKAB();
    ShapeKAB();
    ResolveCleanTo("B1234KAB", DetailedCodes, One('B'), 5, "Kota Bekasi");
  }

  lemma CleanZZZ()
    ensures Sanitize("B1234ZZZ") == "B1234ZZZ"
  {
    AllKeptSound("B1234ZZZ");
    SanitizeOfClean("B1234ZZZ");
  }

  lemma ShapeZZZ()
    ensures ChosenPrefix("B1234ZZZ", DetailedCodes, One('B'))
    ensures PairAt("B1234ZZZ", 5) && forall m :: 0 <= m < 5 ==> !PairAt("B1234ZZZ", m)
    ensures DetailedCodes(One('B')).value.suffix("B1234ZZZ"[5]) == Some("Kota Depok (Cinere)")
  {
  }

  /** "B1234ZZZ": suffix Z under prefix B. */
  lemma ExampleDepok()
    ensures Resolve("B1234ZZZ", DetailedCodes) == "Kota Depok (Cinere)"
  {
    CleanZZZ();
    ShapeZZZ();
    ResolveCleanTo("B1234ZZZ", DetailedCodes, One('B'), 5, "Kota Depok (Cinere)");
  }

  lemma ExampleEmpty()
    ensures Resolve("", DetailedCodes) == Unknown
  {
  }

  /** Only punctuation: the clean text is empty. */
  lemma ExamplePunctuation()
    ensures Resolve("###", DetailedCodes) == Unknown
  {
    SanitizeOfNone("###");
  }

  lemma CleanDigitsFirst()
    ensures Sanitize("1234AB") == "1234AB"
  {
    AllKeptSound("1234AB");
    SanitizeOfClean("1234AB");
  }

  /** A plate starting with a digit has no prefix. */
  lemma ExampleDigitsFirst()
    ensures Resolve("1234AB", DetailedCodes) == Unknown
  {
    CleanDigitsFirst();
    assert NoPrefix(Sanitize("1234AB"), DetailedCodes);
    ResolveUnknown("1234AB", DetailedCodes);
  }
}
