# Indonesian licence-plate text pipeline — a Dafny model

The system reads video frames, finds licence plates with a detector, reads each
plate with an OCR model, and then works on the text alone. For every recognised
text it does four things:

- it classifies the plate as odd ("Ganjil") or even ("Genap") by its last digit;
- it resolves the region code (prefix letters, then the first letter after the
  number block) to a city or regency name. The lookup uses a static table of
  Indonesian plate codes;
- it draws up to three label lines over the plate;
- it prints a "Terdeteksi" line the first time a text is seen. A per-text
  `plate_memory` (a `defaultdict` of `deque(maxlen=30)`) suppresses repeats.

This project models that text-level core of `src/main.py` and proves properties
of it. The work splits into these modules:

- `PlateText` (`plate_text.dfy`): ASCII character classes and `str.upper()`. It
  also holds the sanitiser `re.sub(r'[^A-Z0-9]', '', s.upper())` and the digit
  extraction `re.findall(r'\d', s)`, each as a recursive filter.
- `PlateCategory` (`plate_category.dfy`): `get_plate_category`.
- `Region` (`region.dfy`): the prefix table as a typed function
  `Code -> Option<RegionEntry>`, its invariants, and `get_detailed_city_from_code`.
  The search `re.search(r'\d+([A-Z])', …)` is modelled as a leftmost-start search
  with a greedy digit run. A lemma proves it captures the first letter that
  immediately follows a digit.
- `RegionTable` (`region_table.dfy`): `detailed_city_code_dict`, entry by entry,
  with proofs that the table is well formed.
- `RegionExamples` (`region_examples.dfy`): concrete plates resolved against the
  table.
- `Pipeline` (`pipeline.dfy`): the label list, the `plate_memory` class with its
  check-and-mark step, and the detection and frame loops as methods. The loops are
  proved against the specification function `NewTexts`, which gives the texts
  logged, in order; `PlateMemory.Observe` states its new map directly in terms of
  the old one.

Where the intent suggested by the code and what the code does part, the model
follows the code:

- The `deque(maxlen=30)` of `src/main.py:300` and the comment at
  `src/main.py:298-299` suggest a window of recent sightings per text. The code,
  however, pushes a mark only when the window's sum is zero (`src/main.py:369-370`).
  So a text's window stays `[1]` after its first sighting, and the text is never
  reported again while the process runs. `PlateMemory.Valid` states this, and
  `ExampleNoReReport` shows 31 sightings in a row logged once.
- `"B1234ZZZ"` is "Genap": its last digit is 4 (`ExampleSighting`).
- The "Invalid" branch of `get_plate_category` is kept as the code has it.
  `GetPlateCategory`'s contract shows it is never taken.

The region table is a function defined by `match`, not a `map` literal. A map
literal keyed by strings of this size is beyond what the verifier can reason about
in reasonable time. The function gives the same entries: each key is a `Code`
(one or two prefix characters), each entry holds its "default" name and one
function from suffix letter to name. `detailed_codes.get(prefix, {})` with its
`f"Wilayah {prefix}"` fallback is modelled in full, and `ResolveNamesFromTable`
proves that fallback unreachable on a well-formed table. The frame methods take the
table as a parameter; a caller passes `DetailedCodes`, as `main()` passes
`detailed_city_code_dict` at `src/main.py:334`. The detection loop
itself, `ScanDetections`, takes the label and sighting computations as function
values, and `ProcessFrame` passes the real ones. This keeps the loop's proof
independent of the resolver's definition.

## Model

| member | source | states |
|---|---|---|
| PlateText.ToUpperChar | src/main.py:223 | a lower-case ASCII letter becomes its own capital (code point minus 32); every other character is unchanged |
| PlateText.Upper | src/main.py:223 | `.upper()` keeps the length, capitalises each lower-case letter in place and leaves every other character as it is |
| PlateText.Sanitize | src/main.py:223 | the clean text holds only characters of [A-Z0-9] and is never longer than the input |
| PlateText.KeepAlnum | src/main.py:223 | the filter keeps only characters in [A-Z0-9] and never lengthens the text |
| PlateText.Digits | src/main.py:198 | findall yields only digits and never more characters than the text has |
| PlateText.SanitizeIdempotent | src/main.py:223 | sanitising an already clean text changes nothing |
| PlateText.SanitizeDrops | src/main.py:223 | a character that upper-cases to something outside [A-Z0-9] can be deleted anywhere without changing the clean text |
| PlateText.DigitsEmpty | src/main.py:198-201 | findall finds nothing exactly when the text has no digit |
| PlateText.LastDigit | src/main.py:198-205 | the last element findall returns is the text's last digit |
| PlateText.SanitizeOfClean | src/main.py:223 | a text made only of [A-Z0-9] is its own clean text |
| PlateText.SanitizeOfNone | src/main.py:223-225 | a text without letters or digits sanitises to the empty text |
| PlateCategory.DigitValue | src/main.py:205 | int() on one character succeeds exactly for a digit, giving its value below 10 |
| PlateCategory.GetPlateCategory | src/main.py:183-208 | the result is "" exactly for empty text, and otherwise "No Number", "Genap" or "Ganjil": never "Invalid" |
| PlateCategory.CategoryNoNumber | src/main.py:194-201 | "No Number" exactly for non-empty text without a digit |
| PlateCategory.CategoryParity | src/main.py:203-206 | with s[i] the last digit, the category is "Genap" for an even digit and "Ganjil" for an odd one |
| PlateCategory.CategoryExampleEven | src/main.py:183-208 | "B1234XYZ" is "Genap" |
| PlateCategory.CategoryExampleOdd | src/main.py:183-208 | "H123AB" is "Ganjil" |
| PlateCategory.CategoryExampleLetters | src/main.py:198-201 | "ABC" is "No Number" |
| PlateCategory.CategoryExampleDepok | src/main.py:203-206 | "B1234ZZZ" is "Genap" (last digit 4) |
| Region.MatchPrefix | src/main.py:228-236 | a chosen prefix is a table key that begins the clean text, a single character only when the first two are no key; no prefix only when neither candidate is a key |
| Region.MatchPrefixChosen | src/main.py:228-233 | the prefix step picks p exactly when p is a key that begins the clean text, and p is one character only when the first two are no key |
| Region.MatchPrefixNone | src/main.py:230-236 | no prefix exactly when neither the first two characters nor the first one is a key |
| Region.TwoLetterPrefixWins | src/main.py:229-231 | a two-character key wins over its first character, even when that character is a key too |
| Region.DigitRunEnd | src/main.py:240 | the greedy \d+ run from i covers only digits and stops at the end or at a non-digit |
| Region.SearchSuffix | src/main.py:240-241 | a found suffix letter is an upper-case letter directly after a digit, later than the start position |
| Region.SearchFindsFirstPair | src/main.py:240-241 | the search captures the first upper-case letter that directly follows a digit |
| Region.SearchFindsNone | src/main.py:240-241 | without a letter directly after a digit the search finds nothing |
| Region.GeneralName | src/main.py:244-245 | the entry's "default" name when it has one, otherwise exactly "Wilayah " followed by the prefix |
| Region.SuffixName | src/main.py:247-251 | the entry's name for the letter when listed; otherwise, on an entry with a default, that default |
| Region.Resolve | src/main.py:210-253 | an empty clean text, or one without a prefix key, resolves to "Unknown"; the other cases are stated by ResolveWithSuffix and ResolveWithoutSuffix |
| Region.ResolveSanitized | src/main.py:223 | the result depends on the clean text only |
| Region.ResolveIgnoresCase | src/main.py:223 | upper-casing the text first does not change the result |
| RegionExamples.ExampleLowerCase | src/main.py:223 | the lower-case "bl1234ax" resolves like "BL1234AX", to "Kota Banda Aceh" |
| Region.ResolveIgnoresPunctuation | src/main.py:223 | inserting a non-alphanumeric character anywhere does not change the result |
| Region.ResolveUnknown | src/main.py:223-236 | a missing prefix gives "Unknown"; on a well-formed table without an "Unknown" name, "Unknown" comes from nothing else |
| Region.ResolveWithSuffix | src/main.py:240-251 | with prefix p and first digit-letter pair at k, the result is p's name for that letter, or p's default when the entry does not list it |
| Region.ResolveWithoutSuffix | src/main.py:240-253 | with prefix p and no letter after a digit, the result is p's default name |
| Region.ResolveNamesFromTable | src/main.py:244-253 | on a well-formed table the result is "Unknown" or a name the table holds: the "Wilayah" fallback is unreachable |
| RegionTable.SuffixesBL | src/main.py:58 | the letters listed for prefix BL are upper-case and none names "Unknown"; the names are those of the entry |
| RegionTable.SuffixesBB | src/main.py:59 | the letters listed for prefix BB are upper-case and none names "Unknown"; the names are those of the entry |
| RegionTable.SuffixesBK | src/main.py:60 | the letters listed for prefix BK are upper-case and none names "Unknown"; the names are those of the entry |
| RegionTable.SuffixesBA | src/main.py:61 | the letters listed for prefix BA are upper-case and none names "Unknown"; the names are those of the entry |
| RegionTable.SuffixesBM | src/main.py:62 | the letters listed for prefix BM are upper-case and none names "Unknown"; the names are those of the entry |
| RegionTable.SuffixesBH | src/main.py:63 | the letters listed for prefix BH are upper-case and none names "Unknown"; the names are those of the entry |
| RegionTable.SuffixesBG | src/main.py:64 | the letters listed for prefix BG are upper-case and none names "Unknown"; the names are those of the entry |
| RegionTable.SuffixesBD | src/main.py:65 | the letters listed for prefix BD are upper-case and none names "Unknown"; the names are those of the entry |
| RegionTable.SuffixesBE | src/main.py:66 | the letters listed for prefix BE are upper-case and none names "Unknown"; the names are those of the entry |
| RegionTable.SuffixesBN | src/main.py:67 | the letters listed for prefix BN are upper-case and none names "Unknown"; the names are those of the entry |
| RegionTable.SuffixesBP | src/main.py:68 | the letters listed for prefix BP are upper-case and none names "Unknown"; the names are those of the entry |
| RegionTable.SuffixesB | src/main.py:70 | the letters listed for prefix B are upper-case and none names "Unknown"; the names are those of the entry |
| RegionTable.SuffixesA | src/main.py:71 | the letters listed for prefix A are upper-case and none names "Unknown"; the names are those of the entry |
| RegionTable.SuffixesD | src/main.py:72 | the letters listed for prefix D are upper-case and none names "Unknown"; the names are those of the entry |
| RegionTable.SuffixesE | src/main.py:73 | the letters listed for prefix E are upper-case and none names "Unknown"; the names are those of the entry |
| RegionTable.SuffixesF | src/main.py:74 | the letters listed for prefix F are upper-case and none names "Unknown"; the names are those of the entry |
| RegionTable.SuffixesT | src/main.py:75 | the letters listed for prefix T are upper-case and none names "Unknown"; the names are those of the entry |
| RegionTable.SuffixesZ | src/main.py:76 | the letters listed for prefix Z are upper-case and none names "Unknown"; the names are those of the entry |
| RegionTable.SuffixesH | src/main.py:77 | the letters listed for prefix H are upper-case and none names "Unknown"; the names are those of the entry |
| RegionTable.SuffixesG | src/main.py:78 | the letters listed for prefix G are upper-case and none names "Unknown"; the names are those of the entry |
| RegionTable.SuffixesK | src/main.py:79 | the letters listed for prefix K are upper-case and none names "Unknown"; the names are those of the entry |
| RegionTable.SuffixesR | src/main.py:80 | the letters listed for prefix R are upper-case and none names "Unknown"; the names are those of the entry |
| RegionTable.SuffixesAA | src/main.py:81 | the letters listed for prefix AA are upper-case and none names "Unknown"; the names are those of the entry |
| RegionTable.SuffixesAD | src/main.py:82 | the letters listed for prefix AD are upper-case and none names "Unknown"; the names are those of the entry |
| RegionTable.SuffixesAB | src/main.py:83 | the letters listed for prefix AB are upper-case and none names "Unknown"; the names are those of the entry |
| RegionTable.SuffixesL | src/main.py:84 | the letters listed for prefix L are upper-case and none names "Unknown"; the names are those of the entry |
| RegionTable.SuffixesM | src/main.py:85 | the letters listed for prefix M are upper-case and none names "Unknown"; the names are those of the entry |
| RegionTable.SuffixesN | src/main.py:86 | the letters listed for prefix N are upper-case and none names "Unknown"; the names are those of the entry |
| RegionTable.SuffixesP | src/main.py:87 | the letters listed for prefix P are upper-case and none names "Unknown"; the names are those of the entry |
| RegionTable.SuffixesS | src/main.py:88 | the letters listed for prefix S are upper-case and none names "Unknown"; the names are those of the entry |
| RegionTable.SuffixesW | src/main.py:89 | the letters listed for prefix W are upper-case and none names "Unknown"; the names are those of the entry |
| RegionTable.SuffixesAE | src/main.py:90 | the letters listed for prefix AE are upper-case and none names "Unknown"; the names are those of the entry |
| RegionTable.SuffixesAG | src/main.py:91 | the letters listed for prefix AG are upper-case and none names "Unknown"; the names are those of the entry |
| RegionTable.SuffixesDK | src/main.py:93 | the letters listed for prefix DK are upper-case and none names "Unknown"; the names are those of the entry |
| RegionTable.SuffixesDR | src/main.py:94 | the letters listed for prefix DR are upper-case and none names "Unknown"; the names are those of the entry |
| RegionTable.SuffixesEA | src/main.py:95 | the letters listed for prefix EA are upper-case and none names "Unknown"; the names are those of the entry |
| RegionTable.SuffixesDH | src/main.py:96 | the letters listed for prefix DH are upper-case and none names "Unknown"; the names are those of the entry |
| RegionTable.SuffixesEB | src/main.py:97 | the letters listed for prefix EB are upper-case and none names "Unknown"; the names are those of the entry |
| RegionTable.SuffixesED | src/main.py:98 | the letters listed for prefix ED are upper-case and none names "Unknown"; the names are those of the entry |
| RegionTable.TableWellFormed | src/main.py:56-99 | every key is one or two upper-case letters, every entry has a "default", every suffix key is an upper-case letter |
| RegionTable.TableNamesKnown | src/main.py:56-99 | no entry names a region "Unknown" |
| RegionTable.AllLettersChecked | src/main.py:56-99 | every entry's suffix keys are upper-case letters whose names are not "Unknown" |
| RegionTable.PrefixLIsSurabaya | src/main.py:84 | every plate whose clean text starts with L resolves to "Kota Surabaya" |
| RegionExamples.ExampleTwoLetterPrefix | src/main.py:228-233 | "BL1234AX" resolves through prefix BL, not B, to "Kota Banda Aceh" |
| RegionExamples.ExampleSuffixLetter | src/main.py:240-251 | "B1234KAB" takes suffix K under prefix B: "Kota Bekasi" |
| RegionExamples.ExampleDepok | src/main.py:240-251 | "B1234ZZZ" takes suffix Z under prefix B: "Kota Depok (Cinere)" |
| RegionExamples.ExampleEmpty | src/main.py:223-225 | the empty text is "Unknown" |
| RegionExamples.ExamplePunctuation | src/main.py:223-225 | "###" is "Unknown" |
| RegionExamples.ExampleDigitsFirst | src/main.py:230-236 | "1234AB" has no prefix and is "Unknown" |
| Pipeline.Sum | src/main.py:369 | sum() of a window of non-negative marks is non-negative, and zero exactly when every mark is zero |
| Pipeline.Labels | src/main.py:341-349 | empty text shows only "Membaca..."; otherwise "Plat: …" comes first, "Tipe: …" appears exactly when the category is not "No Number", "Wilayah: …" exactly when the region is not "Unknown", in that order |
| Pipeline.Annotate | src/main.py:333-349 | empty text shows "Membaca..."; otherwise the "Plat" line comes first, and the "Wilayah" line is shown exactly when the region is known |
| Pipeline.SightingOf | src/main.py:333-371 | the logged line carries the text itself, a category that is never "Invalid", and "Unknown" for a text with nothing to sanitise |
| Pipeline.AnnotateShowsCategory | src/main.py:333-345 | for non-empty text the "Tipe" line is shown exactly when the text contains a digit |
| Pipeline.AppendLeft | src/main.py:370 | appendleft on a deque of capacity 30 puts the mark in front, grows the deque by one below capacity, and otherwise drops the oldest mark |
| Pipeline.PlateMemory.constructor | src/main.py:300 | the memory starts empty |
| Pipeline.PlateMemory.Observe | src/main.py:369-370 | a text is reported exactly when it is non-empty and has no window yet; that text gets the window [1], nothing else changes, and every window stays [1] |
| Pipeline.NewTexts | src/main.py:369-371 | the texts logged from a run are never more than its detections; what they are is stated by LoggedOnce and NewTextsFresh |
| Pipeline.LoggedOnce | src/main.py:369-371 | over a run of detections, each non-empty text not marked before is logged exactly once, and every other text never |
| Pipeline.NewTextsFresh | src/main.py:369-371 | a logged text is non-empty, was not marked before and occurs in the run |
| Pipeline.NewTextsAppend | src/main.py:306-371 | a run logs what its first part logs, then what the rest logs with the first part's texts marked |
| Pipeline.ExampleRepeatedPlate | src/main.py:369-371 | the same text in two detections is logged once |
| Pipeline.ExampleNoReReport | src/main.py:369-370 | the same text seen 31 times in a row is logged once |
| Pipeline.ExampleSighting | src/main.py:333-371 | the sighting of "B1234ZZZ" is ("B1234ZZZ", "Genap", "Kota Depok (Cinere)") |
| Pipeline.OverlaysAt | src/main.py:333-349 | detection i of a frame gets the labels of its own text |
| Pipeline.SightingsAt | src/main.py:371 | the i-th logged line carries the i-th logged text with its category and region |
| Pipeline.ScanDetections | src/main.py:318-371 | the detection loop, in detector order: the overlays are the labels of every text, the logged lines those of the new texts, and the memory marks exactly the non-empty texts seen |
| Pipeline.ProcessFrame | src/main.py:318-371 | one frame with the category and region functions: overlays are each text's labels, logged sightings are those of the texts not yet marked |
| Pipeline.FrameOverlaysAt | src/main.py:318-349 | frame f of the stream gets the overlays of its own detections |
| Pipeline.ProcessStream | src/main.py:306-371 | over the whole stream, the overlays are those of every frame, what is logged is the sightings of all detections taken as one run (so each distinct non-empty text is logged once), and the memory afterwards marks exactly the earlier keys plus every non-empty text seen |

## Left out

- Command-line parsing, model loading, video capture and writing, window display,
  the `q` key, the SIGINT handler and `graceful_exit`: input and output only.
- License-plate detection, cropping and OCR: the model receives each frame's
  recognised texts, in detector order, as input.
- The skip of a detection whose crop is empty (`crop.size == 0`): such a detection
  produces no text. The model's input holds only the detections that reach OCR.
- Drawing: the box, the label background and positions, and the FPS overlay are
  screen geometry and floating-point timing.
- The `strftime` timestamp of the console line: the clock is outside the model. A
  sighting carries the text, category and region only.
- Unicode: characters mean what they mean in ASCII. A non-ASCII character is
  neither a letter nor a digit, and `upper()` leaves it unchanged. Python's `\d`
  matches other Unicode digits, and `upper()` maps some non-ASCII letters into A-Z.
