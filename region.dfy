/** The region resolver: from the recognised text of a plate to the name of the city
    or regency its codes stand for, looked up in a prefix table whose entries map a
    suffix letter (and the key "default") to a region name. */
module Region {
  import opened PlateText
  import opened Wrappers

  /** A prefix code: the table's keys are strings of one or two characters. */
  datatype Code = One(c: char) | Two(first: char, second: char)
  {
    /** The key as the string the table is indexed by. */
    function Text(): (k: string)
      ensures 1 <= |k| <= 2
    {
      match this
      case One(c) => [c]
      case Two(a, b) => [a, b]
    }
  }

  /** One prefix's entry: the name under the key "default", when there is one, and the
      names under single suffix letters. */
  datatype RegionEntry = RegionEntry(general: Option<string>, suffix: char -> Option<string>)

  /** The prefix table, read-only: a prefix code's entry, or None for a code that is no key. */
  type CodeTable = Code -> Option<RegionEntry>

  const Unknown := "Unknown"

  predicate IsUpperCode(p: Code)
  {
    match p
    case One(c) => IsUpper(c)
    case Two(a, b) => IsUpper(a) && IsUpper(b)
  }

  ghost predicate IsEntry(e: RegionEntry)
  {
    e.general.Some? && forall c :: e.suffix(c).Some? ==> IsUpper(c)
  }

  /** The invariants the static table keeps: its keys are one or two upper-case letters,
      every entry has a default and is indexed by upper-case letters. */
  ghost predicate WellFormed(t: CodeTable)
  {
    forall p :: t(p).Some? ==> IsUpperCode(p) && IsEntry(t(p).value)
  }

  /** No entry of the table names a region "Unknown". */
  ghost predicate NamesKnown(t: CodeTable)
  {
    forall p :: t(p).Some? ==>
      (t(p).value.general != Some(Unknown) && forall c :: t(p).value.suffix(c) != Some(Unknown))
  }

  /** r is a name some entry holds. */
  ghost predicate IsTableName(t: CodeTable, r: string)
  {
    exists p :: t(p).Some? && (t(p).value.general == Some(r) || exists c :: t(p).value.suffix(c) == Some(r))
  }

  // ---------------------------------------------------------------------------
  // Step 2: the prefix, two characters before one.

  function MatchPrefix(clean: string, t: CodeTable): (r: Option<Code>)
    ensures r.Some? ==> t(r.value).Some? && r.value.Text() <= clean
    ensures r.Some? && r.value.One? ==> !(|clean| >= 2 && t(Two(clean[0], clean[1])).Some?)
    ensures r.None? ==> !(|clean| >= 2 && t(Two(clean[0], clean[1])).Some?) && !(|clean| >= 1 && t(One(clean[0])).Some?)
  {
    if |clean| >= 2 && t(Two(clean[0], clean[1])).Some? then Some(Two(clean[0], clean[1]))
    else if |clean| >= 1 && t(One(clean[0])).Some? then Some(One(clean[0]))
    else None
  }

  /** The prefix rule stated declaratively: p is a table key that begins the clean text,
      and it is a single character only when the first two characters are no key. */
  predicate ChosenPrefix(clean: string, t: CodeTable, p: Code)
  {
    && t(p).Some?
    && p.Text() <= clean
    && (p.One? ==> !(|clean| >= 2 && t(Two(clean[0], clean[1])).Some?))
  }

  /** Neither the first two characters nor the first one is a key. */
  predicate NoPrefix(clean: string, t: CodeTable)
  {
    !(|clean| >= 2 && t(Two(clean[0], clean[1])).Some?) && !(|clean| >= 1 && t(One(clean[0])).Some?)
  }

  lemma MatchPrefixChosen(clean: string, t: CodeTable, p: Code)
    ensures MatchPrefix(clean, t) == Some(p) <==> ChosenPrefix(clean, t, p)
  {
    if ChosenPrefix(clean, t, p) {
      assert p.Text()[0] == clean[0];
      if p.Two? {
        assert p.Text()[1] == clean[1];
      }
    }
  }

  lemma MatchPrefixNone(clean: string, t: CodeTable)
    ensures MatchPrefix(clean, t) == None <==> NoPrefix(clean, t)
  {
  }

  /** Two-letter priority: when the first two characters are a key, they are the prefix,
      whether or not the first character alone is a key too. */
  lemma TwoLetterPrefixWins(clean: string, t: CodeTable)
    requires |clean| >= 2 && t(Two(clean[0], clean[1])).Some?
    ensures !ChosenPrefix(clean, t, One(clean[0]))
    ensures MatchPrefix(clean, t) == Some(Two(clean[0], clean[1]))
  {
  }

  // ---------------------------------------------------------------------------
  // Step 3: re.search(r'\d+([A-Z])', clean), the letter after the first digit block.

  /** Where the greedy \d+ started at i stops. */
  function DigitRunEnd(s: string, i: nat): (j: nat)
    requires i <= |s|
    ensures i <= j <= |s|
    ensures forall k :: i <= k < j ==> IsDigit(s[k])
    ensures j < |s| ==> !IsDigit(s[j])
    decreases |s| - i
  {
    if i < |s| && IsDigit(s[i]) then DigitRunEnd(s, i + 1) else i
  }

  /** The regex search from start position i onwards, leftmost start first. At a start
      the greedy digit run may only give back digits, and a digit never matches [A-Z],
      so the attempt succeeds exactly when the character after the whole run is a
      letter; that letter is group 1. */
  function SearchSuffix(s: string, i: nat): (r: Option<char>)
    requires i <= |s|
    ensures r.Some? ==> exists k :: i < k < |s| && PairAt(s, k) && r.value == s[k]
    decreases |s| - i
  {
    if i == |s| then None
    else if IsDigit(s[i]) && DigitRunEnd(s, i) < |s| && IsUpper(s[DigitRunEnd(s, i)])
    then Some(s[DigitRunEnd(s, i)])
    else SearchSuffix(s, i + 1)
  }

  /** A letter immediately preceded by a digit, at index k. */
  predicate PairAt(s: string, k: int)
  {
    1 <= k < |s| && IsDigit(s[k - 1]) && IsUpper(s[k])
  }

  /** The search captures the first letter that immediately follows a digit. */
  lemma {:induction false} SearchFindsFirstPair(s: string, i: nat, k: nat)
    requires i < k && PairAt(s, k)
    requires forall m :: i < m < k ==> !PairAt(s, m)
    ensures SearchSuffix(s, i) == Some(s[k])
    decreases |s| - i
  {
    var j := DigitRunEnd(s, i);
    if IsDigit(s[i]) && j < k {
      // the run stops before k, at a character that is no letter: the attempt fails
      assert !PairAt(s, j);
      SearchFindsFirstPair(s, i + 1, k);
    } else if !IsDigit(s[i]) {
      SearchFindsFirstPair(s, i + 1, k);
    }
  }

  /** With no letter after a digit there is no match. */
  lemma {:induction false} SearchFindsNone(s: string, i: nat)
    requires i <= |s|
    requires forall m :: i < m < |s| ==> !PairAt(s, m)
    ensures SearchSuffix(s, i) == None
    decreases |s| - i
  {
    if i < |s| {
      var j := DigitRunEnd(s, i);
      if IsDigit(s[i]) && j < |s| {
        assert !PairAt(s, j);
      }
      SearchFindsNone(s, i + 1);
    }
  }

  // ---------------------------------------------------------------------------
  // Step 4 and the whole resolver.

  /** The entry's general name, or the "Wilayah <prefix>" fallback when it has none. */
  function GeneralName(entry: RegionEntry, prefix: Code): (r: string)
    ensures entry.general.Some? ==> r == entry.general.value
    ensures entry.general.None? ==> |r| >= 8 && r[..8] == "Wilayah " && r[8..] == prefix.Text()
  {
    match entry.general
    case Some(name) => name
    case None => "Wilayah " + prefix.Text()
  }

  /** The name an entry gives the suffix letter c, falling back to its general name. */
  function SuffixName(entry: RegionEntry, prefix: Code, c: char): (r: string)
    ensures entry.suffix(c).Some? ==> r == entry.suffix(c).value
    ensures IsEntry(entry) && entry.suffix(c).None? ==> Some(r) == entry.general
  {
    match entry.suffix(c)
    case Some(name) => name
    case None => GeneralName(entry, prefix)
  }

  /** get_detailed_city_from_code. */
  function Resolve(plate: string, t: CodeTable): (r: string)
    ensures Sanitize(plate) == [] ==> r == Unknown
    ensures MatchPrefix(Sanitize(plate), t).None? ==> r == Unknown
  {
    var clean := Sanitize(plate);
    if clean == [] then Unknown
    else
      match MatchPrefix(clean, t)
      case None => Unknown
      case Some(prefix) =>
        // detailed_codes.get(prefix, {}): the empty entry has neither default nor letters
        var entry := match t(prefix) case Some(e) => e case None => RegionEntry(None, c => None);
        match SearchSuffix(clean, 0)
        case Some(c) => SuffixName(entry, prefix, c)
        case None => GeneralName(entry, prefix)
  }

  /** The result depends on the clean text only. */
  lemma ResolveSanitized(plate: string, t: CodeTable)
    ensures Resolve(Sanitize(plate), t) == Resolve(plate, t)
  {
    SanitizeIdempotent(plate);
  }

  /** Case does not matter. */
  lemma ResolveIgnoresCase(plate: string, t: CodeTable)
    ensures Resolve(Upper(plate), t) == Resolve(plate, t)
  {
    SanitizeUpper(plate);
  }

  /** Punctuation, spaces and other characters outside [A-Za-z0-9] do not matter. */
  lemma ResolveIgnoresPunctuation(a: string, c: char, b: string, t: CodeTable)
    requires !IsKept(ToUpperChar(c))
    ensures Resolve(a + [c] + b, t) == Resolve(a + b, t)
  {
    SanitizeDrops(a, c, b);
  }

  /** "Unknown" comes from an empty clean text or a missing prefix; and, on a
      well-formed table where no entry holds that name, from nothing else. */
  lemma ResolveUnknown(plate: string, t: CodeTable)
    ensures NoPrefix(Sanitize(plate), t) ==> Resolve(plate, t) == Unknown
    ensures NamesKnown(t) && WellFormed(t) && Resolve(plate, t) == Unknown ==>
            NoPrefix(Sanitize(plate), t)
  {
  }

  /** The suffix rule, with k the first letter after a digit: its name under the
      chosen prefix, or the prefix's general name when the entry does not list it. */
  lemma ResolveWithSuffix(plate: string, t: CodeTable, p: Code, k: nat)
    requires ChosenPrefix(Sanitize(plate), t, p)
    requires PairAt(Sanitize(plate), k)
    requires forall m :: 0 <= m < k ==> !PairAt(Sanitize(plate), m)
    ensures Resolve(plate, t) == SuffixName(t(p).value, p, Sanitize(plate)[k])
  {
    var clean := Sanitize(plate);
    MatchPrefixChosen(clean, t, p);
    SearchFindsFirstPair(clean, 0, k);
  }

  /** The suffix rule on text that is already clean, with the name the entry gives the
      letter. */
  lemma ResolveCleanTo(plate: string, t: CodeTable, p: Code, k: nat, name: string)
    requires Sanitize(plate) == plate
    requires ChosenPrefix(plate, t, p)
    requires PairAt(plate, k) && forall m :: 0 <= m < k ==> !PairAt(plate, m)
    requires t(p).value.suffix(plate[k]) == Some(name)
    ensures Resolve(plate, t) == name
  {
    ResolveWithSuffix(plate, t, p, k);
  }

  /** Without a letter after a digit, the result is the prefix's general name. */
  lemma ResolveWithoutSuffix(plate: string, t: CodeTable, p: Code)
    requires ChosenPrefix(Sanitize(plate), t, p)
    requires forall m :: 0 <= m < |Sanitize(plate)| ==> !PairAt(Sanitize(plate), m)
    ensures Resolve(plate, t) == GeneralName(t(p).value, p)
  {
    var clean := Sanitize(plate);
    MatchPrefixChosen(clean, t, p);
    SearchFindsNone(clean, 0);
  }

  /** On a well-formed table the "Wilayah <prefix>" fallback is unreachable: the result
      is "Unknown" or a name the table holds. */
  lemma ResolveNamesFromTable(plate: string, t: CodeTable)
    requires WellFormed(t)
    ensures Resolve(plate, t) == Unknown || IsTableName(t, Resolve(plate, t))
  {
    var clean := Sanitize(plate);
    if clean != [] && MatchPrefix(clean, t).Some? {
      var p := MatchPrefix(clean, t).value;
      var r := Resolve(plate, t);
      var e := t(p).value;
      match SearchSuffix(clean, 0)
      case Some(c) =>
        if e.suffix(c).Some? {
          assert e.suffix(c) == Some(r);
        } else {
          assert e.general == Some(r);
        }
      case None =>
        assert e.general == Some(r);
    }
  }
}
