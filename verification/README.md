# kiosk_iload OCR post-processing, modelled in Dafny

kiosk_iload is a kiosk back end for Korean vehicle deregistration. A customer
scans a vehicle registration certificate (자동차등록증) or an ID card. An OCR
engine (Tesseract or Surya) turns the scan into text. This project models what
the back end then does with that text. It takes the text apart into fields,
checks the fields and normalises them into a case summary. Finally it places
the values on the deregistration form PDF.

The model follows the program's own modules:

- **PlateRecognizer** (`api/lib/plate-recognizer.js`): licence-plate candidates from free text and from file names. Covers cleaning, the plate-shape check, the confidence ordering and the penalty for file-name plates.
- **OcrEngine** (`api/lib/ocr-engine.js`): the plate validator behind the Tesseract wrapper. Covers text cleaning, the plate-format check, the one-character OCR correction and the suggestion.
- **Mapper** (`api/lib/mapper.js`), **OcrExtractor** (`api/lib/ocr.js`), **RouteExtractor** (`mapVehicleRegistrationFields` in `api/routes/ocr.js`) and **VehicleRegistration** (`api/services/ocr/vehicleRegistration.ts`): the four independent field extractors. They carry their own precedence rules: first match wins, last match wins, longest candidate, largest mileage.
- **Surya** (`api/lib/surya-integration.js`): the adapter from Surya's structured fields to the common field names.
- **LlmValidator** (`api/lib/llm-validator.js`): the rule-based field validation, the confidence grade, the reading of a model's JSON reply and the choice of an installed model.
- **Normalize** (`api/services/ocr/normalize.ts`): the case summary, the fuel mappings, the merge of OCR fields with user input, text cleanup and Korean dates.
- **Engine** (`api/services/pdf/engine.ts`), **PdfMapping** (`api/lib/pdf-mapper.js`) and **IntelligentMapping** (`api/lib/intelligent-pdf-mapper.js`): the three PDF placers. Covers word wrapping, AcroForm fields first, check boxes, font choice and fallback, and clamping to the page.

**Shapes** collects the plate, VIN and date shapes that several modules check.

**Js** and **Text** model the JavaScript built-ins the source leans on:

- truthiness, `||`, object spread and property reads;
- `String(n)` and `parseInt`;
- `trim`, `split`, `indexOf`, `replace`, `padStart`, upper and lower case.

The model has no regex engine. The fixed-shape patterns (plates, VINs, dates, the labelled patterns of the route and of the TypeScript parser) are written out as functions. The free-form patterns of `api/lib/mapper.js` and `api/lib/ocr.js` are match functions given as parameters. The model assumes nothing about what they return. A lemma that needs a fact of a pattern, such as the length of a captured year, states it as a precondition.

Objects whose fields the source updates in place are classes:

- `PdfEngine` with its font cache;
- `PDFMapper` with its fonts;
- the PDF page as a list of drawing commands.

Loops that fill a result object are methods with loop invariants, proved against a specification function. The rest is functions and lemmas.

Inputs the program gets from outside are parameters of the model:

- the clock;
- the locale's date and number texts;
- `Date` parsing;
- the number conversion of non-number values;
- the encoder's failures;
- the font and field-map files.

## Model

| member | source | states |
|---|---|---|
| PlateRecognizer.PlateBodyAt | api/lib/plate-recognizer.js:7-25 | the digits–syllable–digits body of the table regexes ends at least 7 characters on; without `\s*` the match has the plate shape, and the electric body has '로' as its syllable |
| PlateRecognizer.MatchAt | api/lib/plate-recognizer.js:4-29 | a match of a table pattern is non-empty and its group has the facts of its pattern (shape, region prefix, '로') |
| PlateRecognizer.Scan | api/lib/plate-recognizer.js:53 | every group `matchAll` yields, resuming after each match, has its pattern's facts |
| PlateRecognizer.CleanPlateRemovesJunk | api/lib/plate-recognizer.js:101-106 | `cleanPlate` is exactly the removal of white space, '-', '_' and '.': none is left, a clean plate is unchanged, the rest keeps its order |
| PlateRecognizer.CleanPlateChar | api/lib/plate-recognizer.js:105 | a single character is kept unless it is junk |
| PlateRecognizer.CleanPlateAppend | api/lib/plate-recognizer.js:105 | cleaning distributes over concatenation, so kept characters stay in order |
| PlateRecognizer.FirstHangul | api/lib/plate-recognizer.js:125 | `plate.match(/[가-힣]/)` finds a Hangul syllable, and on a plate-shaped string it is the syllable before the last four digits |
| PlateRecognizer.IsValidPlate | api/lib/plate-recognizer.js:113-131 | valid iff the anchored shape 2–3 digits, one syllable, 4 digits holds and the syllable is one of the 30 whitelisted (the length test 6–9 is implied) |
| PlateRecognizer.PlateShapeIsClean | api/lib/plate-recognizer.js:101-122 | a plate-shaped string holds nothing that cleaning removes |
| PlateRecognizer.PatternCandidatesValid | api/lib/plate-recognizer.js:55-67 | every result one pattern pushes is a valid cleaned plate carrying that pattern's confidence, description and method |
| PlateRecognizer.CandidatesOfValid | api/lib/plate-recognizer.js:52-69 | every result of a run of patterns is a valid plate from the regex path |
| PlateRecognizer.CandidatesValid | api/lib/plate-recognizer.js:52-69 | every collected result is a valid plate with no source yet |
| PlateRecognizer.BestIndex | api/lib/plate-recognizer.js:72-74 | the stable descending sort puts first the earliest result of maximal confidence |
| PlateRecognizer.BestOf | api/lib/plate-recognizer.js:72-77 | null iff there are no results; otherwise the earliest of maximal confidence |
| PlateRecognizer.TextResult | api/lib/plate-recognizer.js:44-47 | an empty or non-string text gives null |
| PlateRecognizer.TextResultFound | api/lib/plate-recognizer.js:72-77 | a non-empty text gives null exactly when no candidate validates |
| PlateRecognizer.TextResultBest | api/lib/plate-recognizer.js:71-75 | the plate returned has maximal confidence and is the first such in pattern, then match, order |
| PlateRecognizer.TextResultValid | api/lib/plate-recognizer.js:56-66 | the plate returned is valid and untagged |
| PlateRecognizer.CollectMatches | api/lib/plate-recognizer.js:55-68 | the inner loop pushes exactly the validated candidates of one pattern, in match order |
| PlateRecognizer.SelectBest | api/lib/plate-recognizer.js:73-74 | the sort-then-`[0]` selection returns the first index of maximal confidence |
| PlateRecognizer.ExtractFromText | api/lib/plate-recognizer.js:44-78 | the method returns exactly the specified text result |
| PlateRecognizer.StripExtension | api/lib/plate-recognizer.js:91 | removes a final '.ext' (no '/' or '.' in ext) and nothing else |
| PlateRecognizer.StripExtensionOf | api/lib/plate-recognizer.js:90-93 | only the last extension goes: `name + "." + ext` becomes `name` |
| PlateRecognizer.FilenameResult | api/lib/plate-recognizer.js:85-88 | an empty or non-string file name gives null |
| PlateRecognizer.ExtractFromFilename | api/lib/plate-recognizer.js:85-94 | the method returns the text result of the name without its extension |
| PlateRecognizer.Combined | api/lib/plate-recognizer.js:139-168 | null iff both sources fail; otherwise the result is tagged with its source |
| PlateRecognizer.CombinedValid | api/lib/plate-recognizer.js:139-168 | whichever source wins, the plate is valid |
| PlateRecognizer.Extract | api/lib/plate-recognizer.js:139-168 | the method returns exactly the specified combined result |
| PlateRecognizer.CollectResults | api/lib/plate-recognizer.js:140-156 | text result tagged 'text' first, then the file-name result tagged 'filename' at nine tenths of its confidence |
| PlateRecognizer.RegionalGroupInvalid | api/lib/plate-recognizer.js:17-21 | a region-prefixed group still starts with a syllable after cleaning, so it never validates |
| PlateRecognizer.RegionalCandidatesEmpty | api/lib/plate-recognizer.js:119-122 | region-prefixed groups contribute no candidate |
| PlateRecognizer.CandidatesOfConfidence | api/lib/plate-recognizer.js:52-69 | candidates carry only confidences of non-regional patterns of the run |
| PlateRecognizer.TableConfidences | api/lib/plate-recognizer.js:4-29 | apart from the regional entry the table's confidences are 0.9, 0.85 and 0.92 (900, 850, 920 thousandths) |
| PlateRecognizer.RegionalPatternNeverContributes | api/lib/plate-recognizer.js:17-22 | the 0.95 regional pattern never yields a candidate, so every candidate has 900, 850 or 920 |
| PlateRecognizer.TextResultConfidence | api/lib/plate-recognizer.js:71-75 | the plate of a text has confidence 900, 850 or 920 |
| PlateRecognizer.ElectricGroupValid | api/lib/plate-recognizer.js:24-28 | an electric-pattern group is already clean and valid |
| PlateRecognizer.FirstMatchContributes | api/lib/plate-recognizer.js:55-67 | a pattern whose first match validates contributes a candidate |
| PlateRecognizer.CandidatesEndWithElectric | api/lib/plate-recognizer.js:4-29 | the electric pattern's candidates come last |
| PlateRecognizer.ElectricPlateWins | api/lib/plate-recognizer.js:71-75 | when the electric pattern matches, a plate is found with confidence 920, the highest reachable |
| PlateRecognizer.TextResultWins | api/lib/plate-recognizer.js:154-165 | a text result beats any file-name result (at most 828 after the 0.9 penalty) |
| Mapper.PlateGapFills | api/lib/mapper.js:53-60 | an empty plate takes the recognised plate, its confidence and its source |
| Mapper.Substring | api/lib/mapper.js:152-154 | `substring(a, b)` never returns more characters than lie between its indexes |
| Mapper.SubstringSlice | api/lib/mapper.js:152-154 | `substring` ignores the order of its indexes; inside the text it is exactly the slice `s[a..b]`, past the end it stops at the end, and wholly past the end it is '' |
| Mapper.BirthDateCentury | api/lib/mapper.js:149-159 | from YYMMDD the birth date is YYYY-MM-DD, in the 1900s when YY exceeds 50 and in the 2000s otherwise |
| Mapper.TrimmedRule | api/lib/mapper.js:71-76 | a text rule assigns the trimmed group only when its field is falsy and the pattern matched |
| Mapper.NumberRule | api/lib/mapper.js:106-111 | the numeric rule assigns `parseInt` of the commas-free group under the same guard |
| Mapper.DateRule | api/lib/mapper.js:63-69 | the date rule assigns the zero-padded YYYY-MM-DD of the groups under the same guard |
| Mapper.TextPlateRule | api/lib/mapper.js:204-210 | the vehicle-number rule assigns the plate `extractFromText` finds under the same guard |
| Mapper.MapVehicleRegistrationFields | api/lib/mapper.js:49-133 | the registration is the structured fields, the plate rule on `extract(text, filename)`, the eight text rules in order, then the stamp |
| Mapper.PlateRule | api/lib/mapper.js:53-60 | the plate, its confidence and its source are assigned only when the plate is empty and a plate was recognised |
| Mapper.DescriptionRules | api/lib/mapper.js:63-104 | the date and five descriptive rules run in source order |
| Mapper.MeasureRules | api/lib/mapper.js:106-125 | the three numeric rules run in source order |
| Mapper.FillGapPreserves | api/lib/mapper.js:71-76 | one guarded rule never overwrites a truthy value and touches only its own key |
| Mapper.FillGapKeeps | api/lib/mapper.js:71-76 | a truthy property is still present, unchanged, after any guarded rule |
| Mapper.DescribedPreserves | api/lib/mapper.js:63-104 | the descriptive rules keep truthy values and touch only their six keys |
| Mapper.MeasuredPreserves | api/lib/mapper.js:106-125 | the numeric rules keep truthy values and touch only their three keys |
| Mapper.DescribedDate | api/lib/mapper.js:63-69 | an empty manufacturing date takes the date found |
| Mapper.StampPreserves | api/lib/mapper.js:127-132 | stamping leaves every key other than the three stamped ones alone |
| Mapper.RegistrationRulesFrame | api/lib/mapper.js:63-125 | the registration's text rules together fill exactly their nine keys |
| Mapper.PlateKeysApart | api/lib/mapper.js:53-132 | the plate rule's keys are distinct from the text rules' keys and the stamped keys |
| Mapper.VehicleRegistrationKeeps | api/lib/mapper.js:50-132 | a truthy structured field survives, except the plate companions and the stamped keys |
| Mapper.VehicleRegistrationStamped | api/lib/mapper.js:127-132 | the result carries 'VEHICLE_REGISTRATION', the processing time and 'high' |
| Mapper.VehicleRegistrationPlate | api/lib/mapper.js:53-60 | a missing plate comes from the plate recognizer with its confidence and source |
| Mapper.VehicleRegistrationDate | api/lib/mapper.js:63-69 | a manufacturing date found in the text is written in YYYY-MM-DD shape |
| Mapper.MapIdCardFields | api/lib/mapper.js:138-175 | the ID card is the structured fields, the name, birth-date and address rules, then the stamp |
| Mapper.IdCardKeeps | api/lib/mapper.js:139-174 | a truthy structured field survives |
| Mapper.IdCardBirthDate | api/lib/mapper.js:148-174 | an empty birth date is built with the century rule and the card has 'medium' confidence |
| Mapper.MapDelegationFormFields | api/lib/mapper.js:180-226 | the delegation form is the structured fields, its five rules in order, then the stamp |
| Mapper.DelegationFormKeeps | api/lib/mapper.js:181-225 | a truthy structured field survives |
| Mapper.DelegationFormPlate | api/lib/mapper.js:204-210 | an empty vehicle number becomes a valid plate when the text holds one |
| Mapper.DelegationPlateFilled | api/lib/mapper.js:204-226 | whatever plate the text rule yields fills an empty vehicle number and survives the later rule and the stamp |
| Mapper.MapInvoiceFields | api/lib/mapper.js:231-277 | the invoice is the structured fields, its five rules in order, then the stamp |
| Mapper.InvoiceKeeps | api/lib/mapper.js:232-276 | a truthy structured field survives |
| Mapper.InvoiceAmount | api/lib/mapper.js:248-253 | an empty amount takes the integer value of the digits with the commas removed |
| Mapper.TextOf | api/lib/mapper.js:11-20 | the text is `ocrResult.text \|\| ''` for an object, the string itself, or '' |
| Mapper.StructuredOf | api/lib/mapper.js:12-17 | the structured fields are `structured_fields \|\| {}` for an object, `{}` otherwise |
| Mapper.SplitInput | api/lib/mapper.js:11-20 | the method splits an OCR result into exactly that text and those fields |
| Mapper.MapFieldsByDocumentType | api/lib/mapper.js:10-44 | the dispatcher returns the mapping of its document type on the split input |
| Mapper.DocumentStamped | api/lib/mapper.js:24-43 | each known type carries itself, the time and 'high' or 'medium'; an unknown type yields exactly raw_text, document_type and processed_at |
| OcrEngine.CountryOf | api/lib/ocr-engine.js:19-48 | a country is found exactly for the four own keys KR, KSA, US and AE |
| OcrEngine.CountryNameRoundTrip | api/lib/ocr-engine.js:19-48 | looking a country up by its own key finds it again |
| OcrEngine.KoreanMatchWithinBounds | api/lib/ocr-engine.js:20-26 | every text the Korean regex accepts is 7 or 8 long, so the length check never rejects it |
| OcrEngine.CleanOCRTextKeeps | api/lib/ocr-engine.js:244-250 | the cleaned text is the upper-cased subsequence of ASCII letters, digits and Hangul syllables, and nothing else survives |
| OcrEngine.ReplaceEvery | api/lib/ocr-engine.js:293-294 | a global literal replacement keeps the length and changes exactly the occurrences of the character |
| OcrEngine.InsertEverywhere | api/lib/ocr-engine.js:54 | the pattern '\|' matches empty at each position, so the replacement is inserted before, between and after the characters |
| OcrEngine.FirstPassingIndex | api/lib/ocr-engine.js:292-298 | a candidate the search returns is the image of one element at a named position, and it passes |
| OcrEngine.FindPassing | api/lib/ocr-engine.js:292-298 | the inner loop returns exactly the first candidate that passes, or nothing |
| OcrEngine.FirstCorrectionIsOneReplacement | api/lib/ocr-engine.js:291-299 | what the search finds is one table entry applied to the original text, and it matches |
| OcrEngine.FirstInIsOneReplacement | api/lib/ocr-engine.js:292-298 | the inner loop's result is the replacement of one of the similars, and it matches |
| OcrEngine.EmptyAlternationNeverFixesKorean | api/lib/ocr-engine.js:54-55 | the '\|' entries never produce a Korean plate |
| OcrEngine.AttemptCharacterCorrection | api/lib/ocr-engine.js:287-302 | the loops return the first matching replacement in `Object.entries` order, always of the original text, or null |
| OcrEngine.Suggestion | api/lib/ocr-engine.js:304-311 | only the Korean pattern gets the Korean suggestion |
| OcrEngine.ValidatePlateText | api/lib/ocr-engine.js:252-285 | unknown country is an error; a valid result matches the pattern and passed the length bounds; a text already matching is returned as is; a suggestion is the country's |
| OcrEngine.LengthCheckedFirst | api/lib/ocr-engine.js:261-266 | a text outside the length bounds is rejected without a suggestion |
| OcrEngine.MismatchCarriesSuggestion | api/lib/ocr-engine.js:280-284 | when nothing matches, the error names the country and format and carries the suggestion |
| OcrEngine.CorrectedIsOneReplacement | api/lib/ocr-engine.js:274-278 | a corrected plate is one table replacement of the text |
| OcrEngine.ValidatePlate | api/lib/ocr-engine.js:252-285 | the method, running the correction loops, returns exactly the specified check |
| OcrExtractor.FirstHitFrom | api/lib/ocr.js:180-183 | the index found is the first, from the start point, whose rule yields a value |
| OcrExtractor.FirstRule | api/lib/ocr.js:180-183 | the `for … break` policy: absent iff no rule yields, otherwise the value of one of them |
| OcrExtractor.FirstRuleIs | api/lib/ocr.js:194-197 | the first rule with a value decides, whatever follows it |
| OcrExtractor.ApplyRules | api/lib/ocr.js:225-231 | the loop with `break` returns exactly the first-rule outcome |
| OcrExtractor.FirstNested | api/lib/ocr.js:204-215 | the pattern loop around the match loop yields the first value of the first list that has one |
| OcrExtractor.ApplyNested | api/lib/ocr.js:204-215 | the two loops, left at the first plausible date, return exactly that outcome |
| OcrExtractor.Collect | api/lib/ocr.js:299-305 | the nested loops push every in-range candidate of every match of every pattern, in order |
| OcrExtractor.MileageRule | api/lib/ocr.js:299-309 | mileage is set exactly when some candidate exists, to the largest of all collected candidates |
| OcrExtractor.DateTextShape | api/lib/ocr.js:210 | a plausible date with a four-digit year is written YYYY-MM-DD and reads back as the numbers found |
| OcrExtractor.DateOfShape | api/lib/ocr.js:200-212 | a date taken from a match of the `(\d{4})` patterns is written YYYY-MM-DD |
| OcrExtractor.MileageOf | api/lib/ocr.js:302-303 | a kept mileage candidate lies strictly between 0 and 2,000,000 |
| OcrExtractor.MileageInRange | api/lib/ocr.js:299-305 | every collected candidate lies strictly between 0 and 2,000,000 |
| OcrExtractor.Max | api/lib/ocr.js:307 | `Math.max` of the candidates is one of them and no smaller than any |
| OcrExtractor.MapVehicleRegistrationFields | api/lib/ocr.js:165-330 | the method assigns the twelve rules in source order, giving exactly the specified fields |
| OcrExtractor.DescriptiveRules | api/lib/ocr.js:171-256 | plate, model, date, chassis number, address and owner, each by its selection policy |
| OcrExtractor.MeasuredRules | api/lib/ocr.js:260-325 | displacement, fuel, the detected samples, mileage and weight, each by its selection policy |
| OcrExtractor.IdCardFields | api/lib/ocr.js:333-339 | the ID card holds only ssn, name and address, each a string |
| OcrExtractor.ChassisNumberShape | api/lib/ocr.js:218-231 | a chassis number found is 17 characters with no white space, from the last match of a pattern |
| OcrExtractor.FirstRuleSkips | api/lib/ocr.js:265-271 | a pattern without an outcome (no match, NaN, out of range) is passed over: the patterns after it decide |
| OcrExtractor.DisplacementNeverClamped | api/lib/ocr.js:261-271 | the displacement kept is exactly the number parsed from the first pattern in range; every earlier pattern had no match, NaN or a number out of range |
| OcrExtractor.WeightNeverClamped | api/lib/ocr.js:315-326 | the weight kept is exactly the number parsed from the first pattern's figure in range; every earlier pattern had no match, NaN or a number out of range |
| OcrExtractor.LabelledDisplacementSkipped | api/lib/ocr.js:262-269 | a whole match starting with its label parses as NaN and is passed over |
| OcrExtractor.FuelSynonymsApplied | api/lib/ocr.js:281-283 | the fuel synonyms are applied to the lowercased match and any other value is kept |
| OcrExtractor.MileageIsMaximum | api/lib/ocr.js:293-309 | the mileage is absent iff there is no candidate, and otherwise the largest in-range candidate |
| OcrExtractor.RegistrationKeys | api/lib/ocr.js:165-330 | the registration has only its twelve keys; the mileage is stored under `mileage`, never `mileage_km` |
| OcrExtractor.DispatchPolicy | api/lib/ocr.js:342-372 | non-empty structured fields go to the Surya adapter whatever the type, with the text as `raw_text` and the result's confidence, so the method is 'surya-ocr'; otherwise 'VEHICLE_REGISTRATION' gives the registration extractor's fields of the text, 'ID_CARD' the ID-card extractor's, and any other type only the first 500 characters (and the method) |
| RouteExtractor.OwnerCapture | api/routes/ocr.js:91 | `([가-힣]{2,10})` captures a greedy run of two to ten syllables exactly when two syllables start there |
| RouteExtractor.ModelCapture | api/routes/ocr.js:99-100 | `([가-힣\w\s]+)` captures the maximal run of the class, across line breaks |
| RouteExtractor.VinCapture | api/routes/ocr.js:112 | `([A-Z0-9]{17})` captures 17 upper-case letters or digits |
| RouteExtractor.DateCapture | api/routes/ocr.js:120-121 | the date capture is ten characters of the dotted-or-dashed date shape |
| RouteExtractor.LazyFrom | api/routes/ocr.js:91 | `.*?` stops at the first position on the same line where the capture succeeds |
| RouteExtractor.Leftmost | api/routes/ocr.js:83 | a non-global `match` finds the leftmost start, and nothing iff no start matches |
| RouteExtractor.FirstCapture | api/routes/ocr.js:82-88 | the loop with `break` takes the capture of the first pattern that matches |
| RouteExtractor.TryPatterns | api/routes/ocr.js:82-88 | the method returns exactly that capture |
| RouteExtractor.MapVehicleRegistrationFields | api/routes/ocr.js:69-133 | the extractor returns the specified fields of `text \|\| ''`, or throws (None) for a truthy non-string text |
| RouteExtractor.ExtractFields | api/routes/ocr.js:73-132 | the five rules in order: plate, owner, trimmed model, VIN, date |
| RouteExtractor.SetFields | api/routes/ocr.js:85-127 | the assignments set exactly the fields whose rule matched |
| RouteExtractor.RegionalPlateAtShape | api/routes/ocr.js:78 | the second plate pattern yields a syllable, two digits, a syllable, four digits |
| RouteExtractor.ThreeDigitSubsumed | api/routes/ocr.js:77-79 | the third plate pattern never decides, because the first matches the same text |
| RouteExtractor.AssembleKeys | api/routes/ocr.js:73-132 | only the five keys appear, each a string, each present iff its rule matched |
| RouteExtractor.LabelPatternSound | api/routes/ocr.js:91 | what a labelled pattern returns follows its label on the same line |
| RouteExtractor.LabelPatternComplete | api/routes/ocr.js:91 | a labelled pattern matches whenever a capture follows its label on the same line |
| RouteExtractor.LabelPatternMatches | api/routes/ocr.js:91-120 | both directions together |
| RouteExtractor.RouteOwner | api/routes/ocr.js:90-95 | the owner is two to ten syllables after '소유자' on the same line, found whenever two syllables follow it there |
| RouteExtractor.VinAlphabet | api/routes/ocr.js:112 | a 17-character `[A-Z0-9]` run is an ISO 3779 VIN exactly when it holds no I, O or Q |
| RouteExtractor.RouteVin | api/routes/ocr.js:111-116 | the VIN is 17 `[A-Z0-9]` characters after '차대번호' on the same line, I, O and Q included |
| RouteExtractor.RouteModelFound | api/routes/ocr.js:97-109 | a model is found exactly when '차명' or '모델' is followed on the same line by a class character |
| RouteExtractor.RouteModelFirst | api/routes/ocr.js:98-107 | '차명' is tried first, and then the model is its trimmed capture |
| RouteExtractor.RouteModel | api/routes/ocr.js:97-109 | the model is the trimmed capture after one of the labels |
| RouteExtractor.DateSeparators | api/routes/ocr.js:120-121 | a captured date is ISO 8601 exactly when both separators are '-' |
| RouteExtractor.RouteDate | api/routes/ocr.js:118-130 | the date is copied verbatim, from after '등록일' when there is one, else the first date; present iff the text holds a date |
| RouteExtractor.RoutePlateFound | api/routes/ocr.js:75-88 | a plate is found exactly when the text holds one of the two shapes |
| RouteExtractor.PlatePatternsFind | api/routes/ocr.js:76-80 | the three patterns together match exactly where one of the two shapes occurs |
| RouteExtractor.RoutePlateShape | api/routes/ocr.js:82-88 | a plate found has one of the two shapes |
| RouteExtractor.RoutePlateFirst | api/routes/ocr.js:77-87 | when the text holds a modern-shaped plate, the leftmost one is taken |
| VehicleRegistration.VinAt | api/services/ocr/vehicleRegistration.ts:8 | a VIN found at a position has the ISO 3779 alphabet and 17 characters |
| VehicleRegistration.VinIn | api/services/ocr/vehicleRegistration.ts:25-28 | the VIN of a line has the ISO 3779 shape |
| VehicleRegistration.DisplacementIn | api/services/ocr/vehicleRegistration.ts:83-86 | a displacement found is a whole number |
| VehicleRegistration.WeightAt | api/services/ocr/vehicleRegistration.ts:10 | the weight group is a non-empty run of digits and commas |
| VehicleRegistration.WeightIn | api/services/ocr/vehicleRegistration.ts:89-92 | a weight found is a whole number, or NaN when the group is only commas |
| VehicleRegistration.GroupedNumber | api/services/ocr/vehicleRegistration.ts:91 | `parseInt` without the commas is a whole number or NaN |
| VehicleRegistration.CommasRemoved | api/services/ocr/vehicleRegistration.ts:91 | digits and commas without the commas are digits |
| VehicleRegistration.MileageAt | api/services/ocr/vehicleRegistration.ts:12 | the mileage group is a non-empty run of digits and commas |
| VehicleRegistration.MileageIn | api/services/ocr/vehicleRegistration.ts:101-107 | a mileage candidate pushed is positive |
| VehicleRegistration.FirstContained | api/services/ocr/vehicleRegistration.ts:95 | `find` returns the first name the line contains, and nothing iff it contains none |
| VehicleRegistration.FuelIn | api/services/ocr/vehicleRegistration.ts:13-98 | the fuel of a line is the first of the seven fuels it contains |
| VehicleRegistration.AddressIn | api/services/ocr/vehicleRegistration.ts:39-45 | an address candidate is never empty |
| VehicleRegistration.DateIn | api/services/ocr/vehicleRegistration.ts:58-80 | a labelled "YYYY년 M월 D일" becomes YYYY-MM-DD, month and day padded by `pad2` (185-187) |
| VehicleRegistration.BirthIn | api/services/ocr/vehicleRegistration.ts:59-64 | a birth date found is in YYYY-MM-DD shape |
| VehicleRegistration.RegistrationIn | api/services/ocr/vehicleRegistration.ts:67-72 | a registration date found is in YYYY-MM-DD shape |
| VehicleRegistration.ManufactureIn | api/services/ocr/vehicleRegistration.ts:75-80 | a manufacturing date found is in YYYY-MM-DD shape |
| VehicleRegistration.MaxOf | api/services/ocr/vehicleRegistration.ts:128 | `Math.max` is a candidate and no smaller than any |
| VehicleRegistration.TrimAll | api/services/ocr/vehicleRegistration.ts:17 | every line is trimmed and none is dropped |
| VehicleRegistration.ScanPlateFold | api/services/ocr/vehicleRegistration.ts:19-22 | the plate evolves by its own keep-first rule, independent of the other fields |
| VehicleRegistration.ScanVinFold | api/services/ocr/vehicleRegistration.ts:25-28 | the chassis number evolves by its own keep-first rule |
| VehicleRegistration.ScanFuelFold | api/services/ocr/vehicleRegistration.ts:95-98 | the fuel evolves by its own keep-first rule |
| VehicleRegistration.ScanLasts | api/services/ocr/vehicleRegistration.ts:31-123 | model, the three dates, displacement, weight, engine number and colour each evolve by their own overwrite rule |
| VehicleRegistration.ScanOwnerFold | api/services/ocr/vehicleRegistration.ts:48-56 | the owner evolves by its own rule |
| VehicleRegistration.ScanAddressFold | api/services/ocr/vehicleRegistration.ts:39-45 | the address evolves by its own longer-wins rule |
| VehicleRegistration.LoopStep | api/services/ocr/vehicleRegistration.ts:17-124 | one more line is one more loop body, for the fields and the mileage candidates |
| VehicleRegistration.ScanLine | api/services/ocr/vehicleRegistration.ts:18-123 | one loop body leaves the specified fields and pushes the line's mileage candidate |
| VehicleRegistration.ApplyFindings | api/services/ocr/vehicleRegistration.ts:20-123 | the `if` statements assign exactly what the specification of one line says |
| VehicleRegistration.ParseVehicleRegistration | api/services/ocr/vehicleRegistration.ts:3-132 | the method returns the specified fields: the scan of the trimmed lines plus the largest mileage candidate |
| VehicleRegistration.ScanLines | api/services/ocr/vehicleRegistration.ts:15-124 | the loop leaves the scan of all lines and exactly their mileage candidates |
| VehicleRegistration.KeepFirstFoldFirst | api/services/ocr/vehicleRegistration.ts:20-21 | keeping the first value set keeps the first value found |
| VehicleRegistration.OverwriteFoldLast | api/services/ocr/vehicleRegistration.ts:33-35 | overwriting keeps the last value found |
| VehicleRegistration.ScanPlate | api/services/ocr/vehicleRegistration.ts:19-22 | the plate comes from the first line that has one |
| VehicleRegistration.ScanVin | api/services/ocr/vehicleRegistration.ts:25-28 | the chassis number comes from the first line that has one |
| VehicleRegistration.ScanFuel | api/services/ocr/vehicleRegistration.ts:95-98 | the fuel comes from the first line that names one |
| VehicleRegistration.ScanKeepsLast | api/services/ocr/vehicleRegistration.ts:31-123 | model, dates, displacement, weight, engine number and colour come from the last line that has one |
| VehicleRegistration.LongestFoldLongest | api/services/ocr/vehicleRegistration.ts:42-44 | replacing only by a longer value keeps the first of the longest values |
| VehicleRegistration.ScanAddress | api/services/ocr/vehicleRegistration.ts:39-45 | the address is the first of the longest candidates |
| VehicleRegistration.BareOwner | api/services/ocr/vehicleRegistration.ts:53-56 | a bare name taken is non-empty |
| VehicleRegistration.OwnerLastLabelled | api/services/ocr/vehicleRegistration.ts:48-56 | after the last labelled line with a name, that name stays |
| VehicleRegistration.OwnerFoldLastLabelled | api/services/ocr/vehicleRegistration.ts:48-56 | the owner fold agrees |
| VehicleRegistration.OwnerFoldBare | api/services/ocr/vehicleRegistration.ts:53-56 | without labelled names the owner is kept from the first bare name |
| VehicleRegistration.OwnerBareName | api/services/ocr/vehicleRegistration.ts:53-56 | then it is the first bare name on an unlabelled line |
| VehicleRegistration.CollectedAre | api/services/ocr/vehicleRegistration.ts:101-107 | the candidate list holds exactly the values found |
| VehicleRegistration.MaxCollected | api/services/ocr/vehicleRegistration.ts:126-129 | the largest collected value is the largest found |
| VehicleRegistration.ParseMileage | api/services/ocr/vehicleRegistration.ts:100-129 | the mileage is the largest "N km" of the lines, absent iff no line has one |
| VehicleRegistration.Checked | api/services/ocr/vehicleRegistration.ts:140-177 | every check is run |
| VehicleRegistration.Failing | api/services/ocr/vehicleRegistration.ts:140-177 | the failing checks are exactly those of the list that fail |
| VehicleRegistration.Messages | api/services/ocr/vehicleRegistration.ts:144-176 | one message per failed check, in order |
| VehicleRegistration.ValidateStructuredFields | api/services/ocr/vehicleRegistration.ts:134-183 | valid iff no errors iff no check fails; each failed check pushes its message, in source order, at most eight |
| VehicleRegistration.FailingReported | api/services/ocr/vehicleRegistration.ts:140-177 | each failed check leaves its message |
| VehicleRegistration.NoneFailing | api/services/ocr/vehicleRegistration.ts:179-182 | nothing is reported iff nothing fails |
| VehicleRegistration.VinUpper | api/services/ocr/vehicleRegistration.ts:151 | upper-casing a VIN changes nothing |
| VehicleRegistration.FindingsOfShape | api/services/ocr/vehicleRegistration.ts:19-107 | every rule finds values of its guaranteed shape |
| VehicleRegistration.ApplyShape | api/services/ocr/vehicleRegistration.ts:20-123 | the assignments keep the guaranteed shapes |
| VehicleRegistration.ScanShape | api/services/ocr/vehicleRegistration.ts:17-124 | the loop keeps the guaranteed shapes |
| VehicleRegistration.ParsedIsValid | api/services/ocr/vehicleRegistration.ts:3-183 | the parser's own output always passes `validateStructuredFields` |
| VehicleRegistration.ParseShape | api/services/ocr/vehicleRegistration.ts:3-132 | the parsed fields have the guaranteed shapes and a positive mileage |
| VehicleRegistration.ShapeValid | api/services/ocr/vehicleRegistration.ts:140-177 | fields of the guaranteed shapes fail no check |
| Surya.SuryaFields | api/lib/surya-integration.js:102-134 | every key is one of the literal's fourteen and no value is '' or 0 |
| Surya.VisitedStep | api/lib/surya-integration.js:126-130 | one turn of the delete loop removes the key exactly when its value is '' or 0 |
| Surya.MapSuryaResultToFields | api/lib/surya-integration.js:102-134 | the method builds the literal and deletes, key by key, exactly the blank entries |
| Surya.SuryaCopies | api/lib/surya-integration.js:107-116 | a vehicle field is in the output exactly when its structured value is truthy, and then with that value |
| Surya.MetadataKeysApart | api/lib/surya-integration.js:106-123 | the metadata keys are not vehicle fields |
| Surya.SuryaMetadata | api/lib/surya-integration.js:119-121 | processing_method is always 'surya-ocr' and ocr_confidence defaults to 'high' |
| Surya.SuryaNoStructured | api/lib/surya-integration.js:103 | a missing structured_fields is read as empty, so no vehicle field appears |
| Shapes.DigitRun | api/services/ocr/vehicleRegistration.ts:7 | a greedy `\d{1,max}` takes the longest digit run up to `max` |
| Shapes.SkipSpaces | api/services/ocr/vehicleRegistration.ts:11 | a greedy `\s*` stops at the first non-space |
| Shapes.ShapeStartsWithDigit | api/lib/plate-recognizer.js:119 | a plate-shaped string starts with a digit |
| Shapes.PlateRegexIsShape | api/lib/plate-recognizer.js:119 | the anchored plate regex, greedy `\d{2,3}` included, accepts exactly the plate shape |
| Shapes.PlateAt | api/services/ocr/vehicleRegistration.ts:7 | an unanchored plate found at a position is plate-shaped and cut from the text there |
| Shapes.FindPlate | api/services/ocr/vehicleRegistration.ts:19 | `exec` finds a plate-shaped string, and nothing iff no position holds one |
| Shapes.IsoDate | api/services/ocr/vehicleRegistration.ts:62 | a four-digit year and one- or two-digit month and day give the YYYY-MM-DD shape |
| Shapes.DigitsThen | api/services/ocr/normalize.ts:196 | a digit group followed by its syllable has between `min` and `max` digits |
| Shapes.KoreanDateAt | api/services/ocr/normalize.ts:196 | a "YYYY년 M월 D일" date at a position has digit groups of 4, 1–2 and 1–2 digits |
| Shapes.FindKoreanDate | api/services/ocr/normalize.ts:196 | `match` finds the leftmost such date, and nothing iff there is none |
| Normalize.FormatDate | api/services/ocr/normalize.ts:172-177 | the local date is never empty and is YYYY-MM-DD for a four-digit year |
| Normalize.SafeNumber | api/services/ocr/normalize.ts:167-170 | the result is undefined or a number >= 0; a number >= 0 is kept exactly and a negative one is dropped, never clamped |
| Normalize.FuelNamesNonEmpty | api/services/ocr/normalize.ts:41-51 | no fuel code is empty, so `fuelMap[fuel] \|\|` never falls through on a known name |
| Normalize.NormalizeFuel | api/services/ocr/normalize.ts:38-54 | the code is empty exactly when the input is missing or empty; a known name gives its code from the table; any other name is lower-cased |
| Normalize.DenormalizeFuel | api/services/ocr/normalize.ts:56-70 | the name is empty exactly when the input is missing or empty; a code known in lower case gives its Korean name; any other text is returned unchanged |
| Normalize.DenormalizeLookupAscii | api/services/ocr/normalize.ts:69 | a text is found in the code table only when it is made of ASCII letters other than 'k' and 'K' |
| Normalize.LowerFixed | api/services/ocr/normalize.ts:53 | under the ASCII case mapping of the model, lower-casing a text without upper-case ASCII letters changes nothing |
| Normalize.FuelTablesAgree | api/services/ocr/normalize.ts:41-67 | every code's Korean name maps back to that code |
| Normalize.FuelCodesKnown | api/services/ocr/normalize.ts:41-67 | every code `normalizeFuel` can produce is known to `denormalizeFuel` and already lower case |
| Normalize.FuelRoundTrip | api/services/ocr/normalize.ts:38-70 | denormalising a code in any case and normalising it back gives the lower-case code |
| Normalize.FuelCanonical | api/services/ocr/normalize.ts:38-70 | normalising a known name and denormalising the code gives the canonical Korean name |
| Normalize.TextOrTruthy | api/services/ocr/normalize.ts:9-31 | `x \|\| ''` is truthy exactly when the field is set |
| Normalize.VehicleReads | api/services/ocr/normalize.ts:14-26 | the vehicle section holds each value under its own key |
| Normalize.ToCaseSummary | api/services/ocr/normalize.ts:3-36 | the summary has the declared types and a truthy application date |
| Normalize.SummaryDefaults | api/services/ocr/normalize.ts:7-34 | the owner type is 'INDIVIDUAL'; the reason is '수출예정' with a certificate, dated with today's `formatDate`; the fuel is normalised; model, manufacturing date, engine number, colour, address and birth date are the recognised text or ''; both time stamps are the current ISO instant |
| Normalize.Overlay | api/services/ocr/normalize.ts:77-88 | object spread: the keys of both, right-biased |
| Normalize.MergeCaseSummaries | api/services/ocr/normalize.ts:72-94 | each section is the overlay of updated on existing; transaction and notes from updated when truthy; createdAt kept when set, else the clock; updatedAt from the clock |
| Normalize.OverlayAssociative | api/services/ocr/normalize.ts:77-88 | overlaying is associative |
| Normalize.MergeAssociative | api/services/ocr/normalize.ts:72-94 | merging a series of updates in either grouping gives the same summary |
| Normalize.MergeEmpty | api/services/ocr/normalize.ts:72-94 | an empty update changes nothing but the timestamps |
| Normalize.MergeTyped | api/services/ocr/normalize.ts:72-94 | merging two well-typed summaries gives a well-typed one |
| Normalize.ChecksListed | api/services/ocr/normalize.ts:104-158 | each check is an error check or a warning check, never both |
| Normalize.AllChecksListed | api/services/ocr/normalize.ts:104-158 | the same for all checks at once |
| Normalize.Failing | api/services/ocr/normalize.ts:104-158 | the failing checks are exactly those of the list that fail |
| Normalize.Messages | api/services/ocr/normalize.ts:106-157 | one message per failed check, in order |
| Normalize.MessagesFromFailing | api/services/ocr/normalize.ts:104-158 | every message pushed comes from a failed check, and every failed check pushes its message |
| Normalize.NoErrorsIff | api/services/ocr/normalize.ts:105-119 | no error check fails exactly when plate, owner name and application date are set |
| Normalize.Report | api/services/ocr/normalize.ts:101-164 | the error and warning lists hold exactly the messages of the failed checks of each kind |
| Normalize.ValidateCaseSummary | api/services/ocr/normalize.ts:96-165 | valid iff no errors iff plate, owner name and application date are set; at most three errors; everything else only warns |
| Normalize.SummaryReads | api/services/ocr/normalize.ts:9-31 | what the validator reads from the built summary is the flat fields, `\|\| ''` and `safeNumber` applied, firstRegisteredAt from the registration date, else the manufacturing date |
| Normalize.SummaryValid | api/services/ocr/normalize.ts:3-119 | the built summary is valid exactly when plate and owner name are set |
| Normalize.ShapedText | api/services/ocr/normalize.ts:122-145 | a text of the checked shape is never reported |
| Normalize.OnlyVinWarning | api/services/ocr/normalize.ts:113-158 | a summary of the checked shapes warns at most about a missing VIN |
| Normalize.ShapedPasses | api/services/ocr/normalize.ts:121-158 | no other warning check fails on it |
| Normalize.ShapedSummary | api/services/ocr/normalize.ts:3-36 | from parser-shaped fields the summary's plate, VIN and dates have the checked shapes, with no negative numbers |
| Normalize.ShapedFirst | api/services/ocr/normalize.ts:19 | `a \|\| b \|\| ''` of shaped texts is shaped |
| Normalize.ParsedSummaryWarnings | api/services/ocr/normalize.ts:96-165 | the summary of the parser's output warns at most about a missing VIN |
| Normalize.CollapseSpaces | api/services/ocr/normalize.ts:181 | each run of white space becomes one plain space |
| Normalize.CollapseKeepsText | api/services/ocr/normalize.ts:181 | collapsing keeps every other character in order |
| Normalize.CollapseAvoids | api/services/ocr/normalize.ts:181 | collapsing adds no character but the space |
| Normalize.RemoveAvoids | api/services/ocr/normalize.ts:182 | removing characters adds none |
| Normalize.RemoveKeepsPlain | api/services/ocr/normalize.ts:182 | removing characters keeps white space plain |
| Normalize.TrimKeeps | api/services/ocr/normalize.ts:183 | trimming leaves no white space at the ends and keeps the other properties |
| Normalize.CleanupText | api/services/ocr/normalize.ts:179-184 | as written: no zero-width character, only plain spaces, trimmed |
| Normalize.CleanupLeavesDoubleSpace | api/services/ocr/normalize.ts:180-182 | "a", space, U+200B, space, "b" comes out with two spaces side by side |
| Normalize.CleanupTextFixed | api/services/ocr/normalize.ts:179-184 | with zero-width characters removed first the result is also single-spaced |
| Normalize.CleanupAgrees | api/services/ocr/normalize.ts:179-184 | on text without zero-width characters both orders agree |
| Normalize.DigitRuns | api/services/ocr/normalize.ts:187 | `match(/\d+/g)` gives non-empty runs of digits |
| Normalize.ParseAll | api/services/ocr/normalize.ts:188 | each run is parsed to its decimal value |
| Normalize.ExtractNumbers | api/services/ocr/normalize.ts:186-189 | the value of every digit run, in order; the NaN filter drops nothing |
| Normalize.ExtractNumbersRoundTrip | api/services/ocr/normalize.ts:186-189 | numbers written out separated by spaces are read back |
| Normalize.ParseKoreanDate | api/services/ocr/normalize.ts:195-201 | a date found is YYYY-MM-DD, and null exactly when no "YYYY년 M월 D일" appears |
| Normalize.WrittenDateParses | api/services/ocr/normalize.ts:191-201 | a date in the written layout is read back as the padded ISO date |
| Normalize.KoreanDateRoundTrip | api/services/ocr/normalize.ts:191-201 | what `formatKoreanDate` writes for a four-digit year and month and day below 100 is read back as the padded date |
| Normalize.DateAtStart | api/services/ocr/normalize.ts:196-198 | the groups found in turn from the start make the first date |
| LlmValidator.Missing | api/lib/llm-validator.js:328-329 | the filter keeps exactly the required keys whose value is falsy |
| LlmValidator.ErrorsExactly | api/lib/llm-validator.js:246-334 | a vehicle registration raises exactly the error checks whose condition holds; other documents raise none |
| LlmValidator.WarningsExactly | api/lib/llm-validator.js:246-334 | the same for the warning checks |
| LlmValidator.MissingRequiredOnce | api/lib/llm-validator.js:327-333 | the missing-field error, when it fires, is the last error and the only one of its kind |
| LlmValidator.Messages | api/lib/llm-validator.js:253-332 | one message per raised check, in order |
| LlmValidator.ErrorsInTurn | api/lib/llm-validator.js:249-333 | the errors are the plate, date, VIN length, name and missing-field messages, each present iff its check fires |
| LlmValidator.WarningsInTurn | api/lib/llm-validator.js:268-325 | the warnings are the VIN characters, birth, mileage, weight, displacement and fuel messages, each present iff its check fires |
| LlmValidator.ValidateExtractedFields | api/lib/llm-validator.js:242-337 | the method pushes exactly the messages of the raised checks onto errors and warnings, and nothing for other documents |
| LlmValidator.CheckPlate | api/lib/llm-validator.js:250-255 | pushes the plate error iff a set plate without white space is not digits–syllable–digits |
| LlmValidator.CheckManufacturingDate | api/lib/llm-validator.js:258-266 | pushes the date error iff a set date is invalid or its year is before 1980 or after this year |
| LlmValidator.CheckChassis | api/lib/llm-validator.js:269-275 | a length other than 17 is an error; 17 characters outside the VIN alphabet only a warning |
| LlmValidator.CheckOwnerName | api/lib/llm-validator.js:278-282 | pushes the name error iff a set name is not two to five syllables |
| LlmValidator.CheckBirthDate | api/lib/llm-validator.js:285-293 | warns iff a set birth date is invalid or the age by calendar year is under 18 or over 100 |
| LlmValidator.CheckRange | api/lib/llm-validator.js:296-317 | warns iff a set value's radix-less `parseInt` is NaN or outside its range |
| Js.ParseIntAuto | api/lib/llm-validator.js:297 | `parseInt` without a radix: a text without a `0x` prefix reads as in decimal; one with it is NaN exactly when no hexadecimal digit follows |
| Js.HexLiteralRead | api/lib/llm-validator.js:297 | "0x" and hexadecimal digits read as their hexadecimal value, where a decimal reading stops at the `x` and gives 0 |
| LlmValidator.HexMileageWarns | api/lib/llm-validator.js:296-302 | a mileage of "0x2000000" (33554432) is out of range and warns, where a decimal reading (0) would not |
| LlmValidator.CheckFuel | api/lib/llm-validator.js:320-325 | warns iff a set fuel is not one of the six standard names |
| LlmValidator.CheckRequired | api/lib/llm-validator.js:328-333 | pushes one error naming the missing required fields, when there are any |
| LlmValidator.ExtractedKeys | api/lib/llm-validator.js:348 | keeps exactly the expected keys that are truthy and not '정보없음' |
| LlmValidator.ExtractedCount | api/lib/llm-validator.js:342-348 | at most eleven fields count |
| LlmValidator.Confidence | api/lib/llm-validator.js:340-357 | 'high' iff at least eight fields and no error; 'medium' iff at least five and at most one error otherwise; else 'low'; other documents 'medium' |
| LlmValidator.ConfidenceFallsWithErrors | api/lib/llm-validator.js:349-353 | more errors never raise the grade |
| LlmValidator.ExtractedGrows | api/lib/llm-validator.js:348 | a richer set of fields counts at least as many |
| LlmValidator.ConfidenceRisesWithFields | api/lib/llm-validator.js:348-353 | extracting more fields never lowers the grade |
| LlmValidator.ErrorForbidsHigh | api/lib/llm-validator.js:242-353 | any error from the rule checks rules out 'high' |
| LlmValidator.DefaultValidationResult | api/lib/llm-validator.js:231-239 | not validated, 'low', the fields as given, the errors given or `[]`, no corrections |
| LlmValidator.FirstOf | api/lib/llm-validator.js:180 | the index of the first occurrence of a character, or none |
| LlmValidator.LastOf | api/lib/llm-validator.js:180 | the index of the last occurrence of a character, or none |
| LlmValidator.JsonSpan | api/lib/llm-validator.js:180 | `/\{[\s\S]*\}/` matches iff some '{' precedes some '}', from the first '{' to the last '}' |
| LlmValidator.FromVerdict | api/lib/llm-validator.js:184-190 | validated as the verdict says; a truthy confidence; the corrections laid over the original fields; `[]` for missing errors |
| LlmValidator.ParseValidationResponse | api/lib/llm-validator.js:177-204 | no JSON span or a parse failure gives the default with the one parse-failure error; the original keys are never lost |
| LlmValidator.CorrectionsWin | api/lib/llm-validator.js:187 | every corrected field takes the model's value and every other original field keeps its own |
| LlmValidator.CorrectionsIdempotent | api/lib/llm-validator.js:187 | laying the same corrections over the result again changes nothing |
| LlmValidator.FirstWith | api/lib/llm-validator.js:218-220 | `find` returns the first installed name containing the family, or nothing iff none does |
| LlmValidator.PickModel | api/lib/llm-validator.js:217-227 | the loop over the preferences, then the fallback, return exactly the specified choice for any preference list |
| LlmValidator.FindBestAvailableModel | api/lib/llm-validator.js:207-228 | a missing model list gives null; otherwise the choice over the five preferred models |
| LlmValidator.BestModelInstalled | api/lib/llm-validator.js:207-228 | a model chosen is installed |
| LlmValidator.BestModelPrefers | api/lib/llm-validator.js:217-224 | the earliest preferred family that is installed decides, and its first installed model is chosen |
| LlmValidator.BestModelFallsBack | api/lib/llm-validator.js:226-227 | with no preferred family installed, the first model is chosen when it has a name |
| Engine.Document.constructor | api/services/pdf/engine.ts:17-19 | a loaded template starts with its form fields and nothing done to it |
| Engine.Document.Do | api/services/pdf/engine.ts:86-121 | each drawing or form call is appended to what was done |
| Engine.NumOr | api/services/pdf/engine.ts:95-98 | `n \|\| d`: a non-zero number is kept, zero and absence give the default |
| Engine.FormatValue | api/services/pdf/engine.ts:184-196 | no format, a format without `#,###` or a value that is not a number leaves the value as it is |
| Engine.FormatDate | api/services/pdf/engine.ts:198-214 | no format or an invalid date gives `String(value)`; otherwise the format with its date tokens filled in order |
| Engine.Words | api/services/pdf/engine.ts:221 | `split(' ')` gives at least one piece, none holding a blank |
| Engine.WrapFrom | api/services/pdf/engine.ts:225-233 | every line is non-empty and holds at most `maxChars + 1` characters unless it is a single word |
| Engine.Wrap | api/services/pdf/engine.ts:216-236 | the same for the lines of a text |
| Engine.WrapText | api/services/pdf/engine.ts:216-236 | the loop returns exactly the specified lines at capacity `floor(width / (fontSize · 0.6))` |
| Engine.WrapStep | api/services/pdf/engine.ts:225-233 | one word either joins the current line (space-separated) when it fits, or closes a non-empty line and starts the next |
| Engine.WrapEmpty | api/services/pdf/engine.ts:221-235 | empty text gives no lines |
| Engine.WrapOvershoots | api/services/pdf/engine.ts:226-227 | the joining blank is not counted: "ab c" fits a capacity of three |
| Engine.WrapKeepsWords | api/services/pdf/engine.ts:225-233 | wrapping loses no text: the lines joined with blanks are the words joined with blanks |
| Engine.DisplayLines | api/services/pdf/engine.ts:105-110 | at most `maxLines` lines are shown, the last marked "..." exactly when lines were cut |
| Engine.LineOps | api/services/pdf/engine.ts:113-122 | line `i` is drawn at the field's x, `i` line heights below its y |
| Engine.MaxLinesOf | api/services/pdf/engine.ts:97 | `maxLines \|\| 1` is at least one |
| Engine.TextFieldOps | api/services/pdf/engine.ts:75-124 | a form field the template has is set; otherwise, with coordinates, at most `maxLines` lines are drawn at the field's x; otherwise nothing |
| Engine.CheckboxOps | api/services/pdf/engine.ts:126-139 | a box is filled exactly when checked and placed, of size `box \|\| 12` |
| Engine.GroupOps | api/services/pdf/engine.ts:141-154 | a box is filled exactly at the chosen option, when the field has it |
| Engine.StampOps | api/services/pdf/engine.ts:156-182 | a placed stamp is a framed box at the field with its text, '(서명)' by default |
| Engine.WalkFromNothing | api/services/pdf/engine.ts:239 | optional chaining finds nothing below `undefined` |
| Engine.WalkAppend | api/services/pdf/engine.ts:239 | walking a path is walking its first part, then the rest |
| Engine.MissingStepUndefined | api/services/pdf/engine.ts:238-240 | a missing key part-way makes the whole path `undefined` |
| Engine.GetTemplate | api/services/pdf/engine.ts:242-265 | exactly 'dereg_form' and 'invoice' have templates, each with its own id and kind |
| Engine.MapOpsAppend | api/services/pdf/engine.ts:30-35 | the fields' operations come in the listed order |
| Engine.MapOpsOne | api/services/pdf/engine.ts:31-34 | a field whose value is `undefined` or `null` adds nothing; every other value, 0 and '' included, is filled |
| Engine.PdfEngine.constructor | api/services/pdf/engine.ts:7 | the font cache starts empty |
| Engine.PdfEngine.LoadFont | api/services/pdf/engine.ts:272-289 | a cached font is returned unchanged; an existing file is read and cached; a missing one gives empty bytes and is not cached; the cache stays true to the files |
| Engine.PdfEngine.FillTextField | api/services/pdf/engine.ts:75-124 | the document gets exactly the text field's operations |
| Engine.PdfEngine.DrawLines | api/services/pdf/engine.ts:113-122 | the loop draws exactly the lines' operations |
| Engine.PdfEngine.FillField | api/services/pdf/engine.ts:49-73 | the field's type chooses the operations appended |
| Engine.PdfEngine.GeneratePdf | api/services/pdf/engine.ts:9-47 | an unknown template changes nothing; otherwise every field with a value is filled in turn, with the value at its dotted path, and the field map's font is added to the cache when its file exists and it was not cached yet; the cache stays true to the files |
| Engine.PdfEngine.FillFields | api/services/pdf/engine.ts:30-35 | the field loop appends exactly the fields' operations |
| Engine.PdfEngine.FillEntry | api/services/pdf/engine.ts:31-34 | one turn fills the field when its value is there |
| PdfMapping.Page.constructor | api/lib/pdf-mapper.js:168-169 | a new page has nothing drawn on it |
| PdfMapping.Page.DrawText | api/lib/pdf-mapper.js:113-118 | a text is drawn exactly when the font can encode it, and otherwise the call throws and draws nothing |
| PdfMapping.CoordinateOf | api/lib/pdf-mapper.js:10-31 | every field of the table lies in x 50–500, y 50–700, with a positive font size |
| PdfMapping.LabelsLabelled | api/lib/pdf-mapper.js:139-149 | every label names a field that has coordinates |
| PdfMapping.LabelRow | api/lib/pdf-mapper.js:139-155 | each label is drawn 80 units left of its field, at the field's height, in size 10 |
| PdfMapping.LabelsLeftOfFields | api/lib/pdf-mapper.js:129-156 | the title sits at (200, 750) in size 18, then the nine labels each 80 units left of their field |
| PdfMapping.AllEncodeCons | api/lib/pdf-mapper.js:151-155 | a list of texts all encode iff the first does and the rest do |
| PdfMapping.DrawAll | api/lib/pdf-mapper.js:151-155 | the `forEach` draws all texts in order, failing at the first that throws |
| PdfMapping.DrawTitled | api/lib/pdf-mapper.js:134-155 | the title, then the row, failing at the first that throws |
| PdfMapping.HasKoreanCharacters | api/lib/pdf-mapper.js:82-84 | true exactly when the text holds a Hangul syllable |
| PdfMapping.SelectFont | api/lib/pdf-mapper.js:89-94 | the Korean font, when loaded, for text with Hangul; the default font otherwise |
| PdfMapping.TranslateOwnerType | api/lib/pdf-mapper.js:210-217 | INDIVIDUAL, BUSINESS and CORPORATE become 개인, 사업자 and 법인; any other string is kept |
| PdfMapping.TranslateOwnerTypeSettles | api/lib/pdf-mapper.js:210-217 | a translated owner type is translated no further |
| PdfMapping.FieldMappings | api/lib/pdf-mapper.js:174-186 | eleven mappings; the reason is always '수출' |
| PdfMapping.FieldMappingsPlaced | api/lib/pdf-mapper.js:174-186 | every mapped key has a place in the coordinate table |
| PdfMapping.SizeOf | api/lib/pdf-mapper.js:116 | `fontSize \|\| 10`: never zero, a set size kept |
| PdfMapping.FieldDraw | api/lib/pdf-mapper.js:106-123 | drawn at the coordinates in the selected font, or once more in the default font when that throws; nothing when both throw |
| PdfMapping.FieldDraws | api/lib/pdf-mapper.js:189-196 | at most one draw per mapping |
| PdfMapping.FieldDrawsFromTruthy | api/lib/pdf-mapper.js:99-104 | every drawn field comes from a truthy value whose key has coordinates, drawn there |
| PdfMapping.FieldDrawsComplete | api/lib/pdf-mapper.js:189-196 | every truthy value whose key has coordinates is drawn there |
| PdfMapping.FieldDrawsAt | api/lib/pdf-mapper.js:189-196 | one turn of the field loop skips a falsy or unplaced entry, draws a placed one in front of the rest, and fails when that draw fails |
| PdfMapping.ReasonAlwaysDrawn | api/lib/pdf-mapper.js:183-195 | a completed form always carries '수출' at the reason's place (150, 590) |
| PdfMapping.PdfMapper.constructor | api/lib/pdf-mapper.js:54-57 | both fonts start `null` |
| PdfMapping.PdfMapper.InitializeFonts | api/lib/pdf-mapper.js:62-77 | Helvetica always; the Korean font when it loads, else the font the mapper had |
| PdfMapping.PdfMapper.AddFieldToPDF | api/lib/pdf-mapper.js:99-124 | nothing for a falsy value or missing coordinates; otherwise `String(value)` drawn as the field draw says |
| PdfMapping.PdfMapper.AddLabels | api/lib/pdf-mapper.js:129-156 | draws exactly the title and labels in `koreanFont \|\| defaultFont`, failing when a draw throws |
| PdfMapping.PdfMapper.DrawFields | api/lib/pdf-mapper.js:189-196 | the loop draws exactly the specified field draws, failing when a draw throws |
| PdfMapping.PdfMapper.LabelsThenFields | api/lib/pdf-mapper.js:168-196 | for any mappings, the page gains the labels and then the field draws; it fails exactly when one of them throws |
| PdfMapping.PdfMapper.GeneratePDF | api/lib/pdf-mapper.js:161-205 | a fresh page holds the labels then the field draws; it fails exactly when a draw throws |
| IntelligentMapping.ClampNum | api/lib/intelligent-pdf-mapper.js:84-86 | `Math.max(lo, Math.min(n, hi))` lies in [lo, hi], keeps a number inside and gives the nearer bound outside |
| IntelligentMapping.Clamp | api/lib/intelligent-pdf-mapper.js:84-86 | a falsy value gives way to the default; a non-zero number is clamped; NaN passes through |
| IntelligentMapping.Refine | api/lib/intelligent-pdf-mapper.js:82-87 | x lies within 50 of the left and right edges, y within 50 of bottom and top, size in 8–16 |
| IntelligentMapping.RefineAll | api/lib/intelligent-pdf-mapper.js:77-92 | every entry is refined under its own key; the call throws (None) exactly when an entry is `null` or `undefined` |
| IntelligentMapping.RefineSettles | api/lib/intelligent-pdf-mapper.js:84-86 | clamping is idempotent on a refined coordinate of numbers |
| IntelligentMapping.WriteBack | api/lib/intelligent-pdf-mapper.js:83-87 | the refined coordinates are written as objects under the same keys |
| IntelligentMapping.RefineAllIdempotent | api/lib/intelligent-pdf-mapper.js:77-92 | refining the output of a refinement gives it back unchanged |
| IntelligentMapping.WriteBackRefines | api/lib/intelligent-pdf-mapper.js:81-87 | each written-back entry can be read and refines to the coordinate it came from |
| IntelligentMapping.IntelligentPdfMapper.constructor | api/lib/intelligent-pdf-mapper.js:4-7 | the page is A4, 595 by 841 points |
| IntelligentMapping.IntelligentPdfMapper.ValidateAndRefineCoordinates | api/lib/intelligent-pdf-mapper.js:77-92 | the loop over the keys returns exactly the specified refinement |
| IntelligentMapping.RefinePoint | api/lib/intelligent-pdf-mapper.js:84-86 | a fallback coordinate of non-zero numbers has each part clamped on its own |
| IntelligentMapping.DefaultsAgainstClamp | api/lib/intelligent-pdf-mapper.js:94-111 | thirteen fallbacks; all lie within the A4 clamp except application_month and application_day, which lie right of x = 545 |
| IntelligentMapping.DefaultsRefined | api/lib/intelligent-pdf-mapper.js:77-111 | refining the fallbacks on A4 keeps every coordinate except those two x values, which become 545 |
| IntelligentMapping.Asciify | api/lib/intelligent-pdf-mapper.js:173-179 | each Hangul syllable becomes 'X' and every other character stays |
| IntelligentMapping.AsciifyClears | api/lib/intelligent-pdf-mapper.js:173-179 | no Hangul survives and a second pass changes nothing |
| IntelligentMapping.FormatTextForPDF | api/lib/intelligent-pdf-mapper.js:169-187 | '' for a falsy text, a throw for a truthy non-string; Hangul replaced; a longer text cut to `maxLength` plus '...', so at most `maxLength + 3` long |
| IntelligentMapping.FormattedNeedsNoKoreanFont | api/lib/intelligent-pdf-mapper.js:169-187 | a formatted text holds no Hangul, so the default font suffices |

## Left out

- Network and model calls are not modelled. These are `validateAndEnhanceOCRResult` and its prompt builders in `api/lib/llm-validator.js`, and `analyzeFieldPositions`, `optimizeFieldPlacement` and `generateIntelligentMapping` in `api/lib/intelligent-pdf-mapper.js`. All of them are round trips to an Ollama server. Only their pure parts are modelled: reply parsing, model choice and coordinate refinement.
- OCR itself is not modelled. This covers `performOCR`, `preprocessImage`, the canned `getMockOCRResult`, the Tesseract worker (initialise, recognise, terminate) and `ImageQualityAnalyzer`. They are image processing and floating-point blur scores. `performSuryaOCR` and `checkSuryaAvailability` start child processes and are not modelled either.
- File I/O and pdf-lib are not modelled:
  - a page is a list of drawing commands;
  - template loading, font embedding, `flatten`, `save`, `savePDFToFile` and `generatePDFAsBase64` are not modelled;
  - `PdfEngine` reads font files and the field map through parameters.
- The clock is a parameter:
  - the manufacturing-year and age checks of the validator take the current year and a `Date` parse as parameters;
  - one ISO timestamp stands for every `new Date().toISOString()` of a call.
- Locale formatting is a parameter. The `toLocaleDateString` and `toLocaleString` texts of `api/lib/pdf-mapper.js` are inputs. So is the `'#,###'` formatting of `api/services/pdf/engine.ts`.
- pdf-lib's failures to encode a text in a font are a parameter (`encodes`). Whether the Korean font file loads is a boolean. The text of pdf-lib's error messages is not modelled.
- Some JavaScript conversions are parameters:
  - the number conversion of values that are not numbers;
  - `String(n)` for a number that is not an integer, or whose magnitude is at least 10^21 (JavaScript writes those in exponent form).

  `String(n)` of an integer below 10^21 in magnitude is modelled exactly. `parseInt` of a digit run beyond double precision is taken as exact. `parseInt` without a radix reads a `0x` prefix as hexadecimal, and `LlmValidator.CheckRange` models that (`Js.ParseIntAuto`).
- Numbers are reals, and floating-point rounding is not modelled. This affects `width / (fontSize * 0.6)` in the word wrap and the confidence arithmetic. Infinity and -0 are not modelled.
- Properties inherited from `Object.prototype` (`__proto__`, `toString` and the like) are not keys of a modelled object. This affects the owner-type and fuel tables, the refined-coordinates object, dotted-path lookups, `PLATE_PATTERNS[country]` (`OcrEngine.CountryOf`), `templates[templateId]` (`Engine.GetTemplate`) and `field.options[selectedValue]` (`Engine.GroupOps`).
- String lengths count characters, not UTF-16 code units. A character outside the Basic Multilingual Plane counts once where the source counts two. This matters in `formatTextForPDF` and the length checks.
- The order of `Object.keys` and `Object.entries` is not modelled:
  - `validateAndRefineCoordinates` is modelled over a map;
  - field mappings are sequences in the order given.
- Spreading a string or an array into an object is not modelled; spread operands are objects or nothing.
- The free-form regular expressions of `api/lib/mapper.js` and `api/lib/ocr.js` are not modelled. They are match functions given as parameters (`Mapper.Matchers`, `OcrExtractor.Scan`), and nothing is assumed about what those return. Lemmas that need a fact of a pattern state it as a precondition. The plate table of `api/lib/plate-recognizer.js` and the fixed-shape patterns (plates, VINs, ISO and Korean dates, the labelled patterns of `api/routes/ocr.js` and `api/services/ocr/vehicleRegistration.ts`) are written out.
- OcrExtractor.DisplacementOutcome and the other `parseInt` calls of `api/lib/ocr.js` (lines 208, 268, 302 and 322) read the match in decimal, though the source passes no radix. Their patterns capture digits and commas only, so a `0x` prefix never reaches them.
- Mapper.TextOf, Mapper.StructuredOf, Mapper.SplitInput and Mapper.MapFieldsByDocumentType: these require a truthy `text` to be a string and truthy `structured_fields` to be an object. The source calls string and object methods on them, so other values are not modelled.
- OcrExtractor.InputText, OcrExtractor.FieldsByDocumentType and OcrExtractor.DispatchPolicy: these require a truthy `text` to be a string, for the same reason.
- LlmValidator.ValidateExtractedFields and LlmValidator.CheckPlate: these require a set licence plate to be a string, because the source calls `replace` on it.
- Normalize.ValidateCaseSummary: this requires the checked values to have their declared TypeScript types (texts are strings, numbers are numbers). A `null` summary, which throws, is not modelled.
- Normalize.FormatKoreanDate takes integers, as its TypeScript signature declares.
- Engine.PdfField: `maxLines` is a natural number.
- The expectation in `api/tests/testVehicleRegistrationOCR.ts:159-166`, that a short VIN is caught, is not a lemma. The parser never stores a VIN that is not 17 characters long, so that expectation cannot hold.
- Console logging is not modelled.
- VehicleRegistration.ValidateStructuredFields: `toUpperCase` is modelled on ASCII letters only (`Text.ToUpper`). JavaScript also maps other letters, some to several characters ('ß' to "SS") or to ASCII ('ſ' to 'S'). A chassis number holding such letters can pass the VIN check in the source and fail it in the model.
- Normalize.NormalizeFuel: `toLowerCase` is modelled on ASCII letters only (`Text.ToLower`). An unknown fuel name with other upper-case letters ('É') is lower-cased by the source and returned unchanged by the model.
- Normalize.LowerFixed: the lemma is about the model's ASCII lower case. It says nothing about JavaScript's full Unicode mapping.
- Normalize.ValidateCaseSummary: the VIN check upper-cases with ASCII letters only, as in VehicleRegistration.ValidateStructuredFields above.
- OcrEngine.CleanOCRText, OcrExtractor.FuelOutcome and Normalize.DenormalizeFuel also use the ASCII case mapping. In `denormalizeFuel` it is exact: a code is found only for a text of ASCII letters other than 'k' and 'K' (`Normalize.DenormalizeLookupAscii`). The only other letter JavaScript lower-cases to a single ASCII letter is U+212A KELVIN SIGN, to 'k', and no code holds a 'k'. So the source finds a code exactly when the model does. The function returns a table entry or its input, never a lower-cased text. In the other two it is also exact: in the source the text they case-map holds only ASCII letters and digits, Hangul, colons and white space, none of which JavaScript maps outside that set.

## Findings

| source | as written | input that shows it | evidently intended | confidence | as-written member | corrected member |
|---|---|---|---|---|---|---|
| api/services/ocr/normalize.ts:179-184 | `cleanupText` collapses white space before it removes zero-width characters, so the spaces on both sides of a removed character survive as two | "a", space, U+200B, space, "b" gives "a  b" with two spaces | single-spaced output | medium; not executed | Normalize.CleanupLeavesDoubleSpace | Normalize.CleanupAgrees |
