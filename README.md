# SwiftUI playground logic, modelled in Dafny

The repository is a collection of SwiftUI demo screens. This project models the platform-independent
logic spread through them and proves what the screens rely on:

- **Double Metaphone** (`metaphone.swift`). The phonetic encoder is modelled as written: the
  per-letter rules, the cursor that moves twice, and the pending outcome that is never reset. It sits
  beside the country search of the same playground.
- **World cities** (`picker/CitlyListDemo.swift`):
  - the quote-aware CSV splitter and row validation;
  - the file pipeline (lines, trimming, header, cities);
  - the scope and text filters;
  - the scope list;
  - the UTC-offset label of a city row.
- **Music library** (`viewmodel/MusicCleanArchitecture.swift`): the genre scope and search filter, the
  genre scope list, the fetch-once repository cache and the loading-state predicates.
- **Document picker** (`document/DocumentProgressPicker.swift`):
  - the range expression that sets how many files may be selected;
  - the count check and its error messages;
  - the append-only document store and the import handler.
- **Tri-state toggle** (`fields/tristate.swift`): the three-state tap cycle, the colours and labels
  of each state, and the in-place updates of the filter group's tag array.
- **OTP entry** (`OTPVerificationCode.swift`): the digit sanitiser, the per-cell digits, the length
  clamp, and the countdown that a one-second timer drives.
- **Birthday picker** (`BirthdayPickerView.swift`): the birth date for an age and the age for a birth
  date, over (year, month, day), with "today" as a parameter.
- **Adaptive bottom sheet** (`navigation/AppleMapsSkeletton.swift`): how the sheet follows size-class
  changes, and where it snaps when a drag ends.
- **Symbol picker** (`symbolpicker.swift`): the load and search result states and the
  case-insensitive substring filter.
- **Font explorer** (`docdesign/oldfontexplorer.swift`): traits read off the symbolic-trait flags,
  family equality and hashing without the identifier, the family sort order, and the trait order.
- **String-catalog scripts** (`localizable_scripts/*.py`): merging catalogs with the last file
  winning, extracting the `paywall_` keys, and deleting the Spanish localizations.

Foreign calls become function-typed parameters:

- `trimmingCharacters`;
- `localizedCaseInsensitiveContains`;
- `removingAccents`;
- `Character.isNumber`;
- reading a file;
- `UUID()`.

Each parameter's role is stated where it is used. Time-zone lookups, symbol loading and data-source
results are inputs.

Lower-casing is ASCII-only. Swift's truncating `/` and `%` are written out (`CityList.TruncDiv`,
`CityList.TruncRem`).

Shared modules:

- `Wrappers` holds `Option` and `Result`.
- `Seqs` holds an order-keeping filter.
- `Text` holds substring, prefix and lexicographic order.
- `Decimal` holds integer-to-text conversion.

The Double Metaphone source reads windows of the word through `Word.getLetters(range:)`
(metaphone.swift:64-66), which slices the input and traps when the range runs past the end. It also
calls helpers it never defines. `MetaphoneText` gives all of them bounded meanings, and any question
about a letter outside the word is answered "no":

- `getLetters(range:)`: a window matches only if it lies inside the word (`MetaphoneText.WindowIs`).
- `getLetter(at:)`: the letter, or none outside the word.
- `isVowel(at:)`: a letter among AEIOUY.
- `isAtEnd` and `isEndOfWord`: the last letter.
- `isSuffixAt(i, s)`: the word ends with `s` from `i` or later.
- `isFollowedBy...`: the letter after the cursor.
- `characterAt`, `charAt`: a one-letter string, or "".

## Model

| member | source | states |
|---|---|---|
| MetaphoneRules.VowelOutcome | metaphone.swift:105-110 | a vowel is coded "A" with no alternate exactly at the start of the word, and consumes one letter |
| MetaphoneRules.RuleB | metaphone.swift:182-196 | B is coded P; before H the rule moves the cursor two more letters unless BH ends the word |
| MetaphoneRules.RuleC | metaphone.swift:197-256 | C always sets equal codes, X or K; CH is ("X","X",2) at the start or after S and ("K","K",2) elsewhere; a C not followed by H, I or C is ("K","K",1) |
| MetaphoneRules.RuleD | metaphone.swift:257-277 | D is coded J exactly before G and then E, Y or I, and T otherwise, with equal codes |
| MetaphoneRules.RuleF | metaphone.swift:278-289 | F is coded ("F","F"), consuming two letters exactly for FF |
| MetaphoneRules.RuleG | metaphone.swift:290-337 | of the branches as written only two can fire on a G: GH after the start is coded J, any other G is coded K, and the rule moves the cursor once |
| MetaphoneRules.RuleH | metaphone.swift:338-383 | H at the start before a vowel, or before another H, keeps the pending outcome; any other H is coded H |
| MetaphoneRules.RuleJ | metaphone.swift:384-399 | an initial JOSE is ("H","H",4); any other J is coded Y |
| MetaphoneRules.RuleK | metaphone.swift:400-419 | K is ("K","K",1) and moves the cursor once itself |
| MetaphoneRules.RuleL | metaphone.swift:420-450 | L is ("L","L",1) and moves the cursor once itself |
| MetaphoneRules.RuleM | metaphone.swift:451-474 | M is ("M","M",1) and moves the cursor once itself |
| MetaphoneRules.RuleN | metaphone.swift:475-530 | N is ("N","N",1) and moves the cursor once itself |
| MetaphoneRules.RuleP | metaphone.swift:531-560 | PH is ("F","F",2); any other P is coded P |
| MetaphoneRules.RuleQ | metaphone.swift:561-575 | Q is ("K","K",1), and the cursor skips one more letter exactly when the letter two ahead is U |
| MetaphoneRules.RuleR | metaphone.swift:576-603 | R is coded R, moving two letters for RR; a final R adds empty codes |
| MetaphoneRules.RuleS | metaphone.swift:604-628 | S is coded X exactly before I, E or Y other than IO/IA, S otherwise, always with alternate "" |
| MetaphoneRules.RuleT | metaphone.swift:629-659 | TH is ("0","",2); TIO, TIA and TCH are ("X","",3); a final T is ("T","",1); a T followed by another letter, other than TH, TIO, TIA or TCH, keeps the pending outcome, and this is the only case that does |
| MetaphoneRules.RuleV | metaphone.swift:660-674 | a V with a following letter is coded V with alternate F and does not move the cursor itself; a final V is coded F |
| MetaphoneRules.RuleW | metaphone.swift:675-697 | W before a vowel other than Y is F, before anything else W; a final W changes nothing |
| MetaphoneRules.RuleX | metaphone.swift:698-706 | X is coded only at the very start, and always moves the cursor once |
| MetaphoneRules.RuleZ | metaphone.swift:707-713 | Z is coded S, with alternate S and two letters consumed exactly before another Z |
| MetaphoneRules.LetterRule | metaphone.swift:126-166 | the dispatch on B..Z; any other character runs no rule and keeps the pending outcome |
| Metaphone.WordStart | metaphone.swift:89-103 | the cursor moves at most two letters; the codes are untouched or set to "S","S" after an X; nothing changes without a silent start or an X |
| Metaphone.Accumulate | metaphone.swift:168-173 | lock-step accumulation: with a primary fragment p, primary gets p and alternate gets the alternate or p; without one, neither changes; the cursor moves forward |
| Metaphone.Step | metaphone.swift:119-173 | one loop turn strictly moves the cursor; a space moves it by exactly one and adds no code |
| Metaphone.Finish | metaphone.swift:176-179 | the returned alternate is "" exactly when it equals the primary or is empty, otherwise the alternate code |
| Metaphone.Encode | metaphone.swift:716-718 | the alternate code is either empty or differs from the primary one |
| Metaphone.DoubleMetaphone.CheckWordStart | metaphone.swift:89-103 | `checkWordStart` computes `WordStart` on the object's fields |
| Metaphone.DoubleMetaphone.ProcessInitialVowels | metaphone.swift:105-110 | sets `next` to the vowel outcome for the cursor |
| Metaphone.DoubleMetaphone.ProcessLetter | metaphone.swift:126-166 | the chosen rule's outcome replaces `next` or leaves it, and the cursor moves by the rule's own step |
| Metaphone.DoubleMetaphone.ParseLetter | metaphone.swift:119-173 | one turn of the loop on the object is exactly `Step` |
| Metaphone.DoubleMetaphone.Parse | metaphone.swift:114-180 | the loop ends past the word and returns `Finish(Scan(...))` from the state after `checkWordStart`; codes carry over from earlier calls |
| Metaphone.DoubleMetaphoneOf | metaphone.swift:716-718 | parsing with a new encoder returns `Encode(input)` |
| Metaphone.Scan | metaphone.swift:119-172 | the loop only appends to both codes |
| MetaphoneProperties.EncodeBounded | metaphone.swift:114-180 | neither code is longer than the word |
| MetaphoneProperties.EncodeAlphabet | metaphone.swift:114-180 | both codes use only the code alphabet |
| MetaphoneProperties.SilentStartSkipped | metaphone.swift:89-96 | a word starting GN, KN, PN, WR or PS is encoded from its second letter |
| MetaphoneProperties.InitialXCodedAsS | metaphone.swift:98-102 | a word starting with X has codes starting with S |
| MetaphoneProperties.LowercaseWordHasNoCode | metaphone.swift:119-166 | the input is never upper-cased, so a word without capitals gets ("", "") |
| MetaphoneProperties.TwoLetterGroupsSkipTwoMore | metaphone.swift:533-536 | PH, TH and FF advance the cursor by four and add F or 0 |
| MetaphoneProperties.CiaCodedK | metaphone.swift:197-256 | the CIA branch compares a four-letter window with three letters and never fires, so CIA is K |
| MetaphoneProperties.PlainStart | metaphone.swift:89-103 | a word not starting with G, K, P, W or X leaves the start untouched |
| MetaphoneProperties.PhoneExample | metaphone.swift:114-180 | PHONE encodes as ("F", "") |
| MetaphoneProperties.SimpleConsonantSkipsNextLetter | metaphone.swift:400-530 | K, L, M, N move the cursor by two, so the next letter is never coded |
| MetaphoneProperties.InnerGhCodedJ | metaphone.swift:290-337 | a G followed by H after the start is coded J and skips the H |
| MetaphoneProperties.FinalTCodedT | metaphone.swift:629-659 | a final T adds T to the primary and nothing to the alternate, ending the loop |
| MetaphoneProperties.KnightExample | metaphone.swift:114-180 | KNIGHT encodes as ("NJT", "NJ") |
| MetaphoneText.WindowOfOtherWidthNeverMatches | metaphone.swift:64-66 | a window of one width never equals a string of another length |
| CountrySearch.SearchCountries | metaphone.swift:732-747 | exactly the matching countries are kept, never more than the input |
| CountrySearch.SearchKeepsOrder | metaphone.swift:735-746 | the result is an order-preserving subsequence of the countries |
| CountrySearch.TwoLetterTermSearchesIsoCodes | metaphone.swift:735-739 | a two-letter term finds exactly the countries whose ISO code equals it ignoring case |
| CountrySearch.EmptyTermFindsNothing | metaphone.swift:740-746 | a term that folds to the empty string finds no country, since Foundation's `contains("")` is false |
| CityCsv.ParseCsvLine | picker/CitlyListDemo.swift:133-156 | the character loop computes `Fields(line)` |
| CityCsv.FieldCount | picker/CitlyListDemo.swift:144-154 | a line has one field more than it has commas outside quotes |
| CityCsv.FieldsKeepText | picker/CitlyListDemo.swift:133-156 | the fields joined with commas give back the line without its quotes |
| CityCsv.UnquotedFieldsHaveNoComma | picker/CitlyListDemo.swift:144-146 | a line without quotes splits at every comma |
| CityCsv.CityFromRow | picker/CitlyListDemo.swift:15-25 | fewer than five columns fail with invalidRowFormat; otherwise the first five columns trimmed |
| CityCsv.ExtraColumnsIgnored | picker/CitlyListDemo.swift:15-25 | columns after the fifth do not matter |
| CityCsv.LinesHaveNoNewline | picker/CitlyListDemo.swift:115 | no split line holds a newline |
| CityCsv.CleanLines | picker/CitlyListDemo.swift:115-117 | every kept line is non-blank and is a trimmed line of the content |
| CityCsv.CleanLinesKeepsNonBlank | picker/CitlyListDemo.swift:115-117 | every line non-blank after trimming is kept, in order |
| CityCsv.DataLines | picker/CitlyListDemo.swift:124 | the first line is dropped exactly when it contains "name,country" |
| CityCsv.CitiesOf | picker/CitlyListDemo.swift:126-130 | succeeds exactly when every row has five fields, giving one city per row |
| CityCsv.ParseCsv | picker/CitlyListDemo.swift:114-131 | emptyFile exactly when no non-blank line remains; otherwise the cities of the data lines |
| CityList.FilterByScope | picker/CitlyListDemo.swift:252-261 | `.all` keeps the input; otherwise exactly the cities in scope, order kept |
| CityList.FilterBySearchText | picker/CitlyListDemo.swift:263-270 | empty text keeps the input; otherwise exactly the cities matching name, country or subcountry, order kept |
| CityList.Execute | picker/CitlyListDemo.swift:223-245 | fails exactly when the fetch fails, with its error; otherwise the cities in scope matching the text |
| CityList.CountriesOf | picker/CitlyListDemo.swift:387 | a name is listed exactly when some city has it as its country |
| CityList.CountryScopes | picker/CitlyListDemo.swift:388 | one country scope per name, in order, and never `.all` |
| CityList.AvailableScopes | picker/CitlyListDemo.swift:386-391 | `.all` first, then one scope per country, ascending, exactly the countries of the cities |
| Decimal.SignedText | picker/CitlyListDemo.swift:580 | `%+d`: a '+' for zero and positives, '-' for negatives, then digits that read back as the magnitude |
| Decimal.TwoDigitText | picker/CitlyListDemo.swift:582 | `%02d` below 100: exactly two digits that read back as the number |
| CityList.TruncDiv | picker/CitlyListDemo.swift:575 | Swift's division rounding toward zero |
| CityList.TruncRem | picker/CitlyListDemo.swift:576 | Swift's remainder, with the dividend's sign |
| CityList.UtcOffsetTextAsWritten | picker/CitlyListDemo.swift:574-584 | the label as written starts with "UTC" |
| CityList.AsWrittenLosesSign | picker/CitlyListDemo.swift:575-583 | -1800 is labelled "UTC+0:30", which reads back as +1800 |
| CityList.UtcOffsetText | picker/CitlyListDemo.swift:574-584 | the label carries the offset's own sign |
| CityList.LabelsAgreeOutsideFirstNegativeHour | picker/CitlyListDemo.swift:574-584 | both labels agree for offsets of at least an hour behind, or not behind |
| CityList.UtcOffsetRoundTrip | picker/CitlyListDemo.swift:574-584 | every whole-minute offset is read back from its label |
| CityList.FormattedUtcOffset | picker/CitlyListDemo.swift:569-585 | no label exactly for an unknown zone, otherwise the offset's label as corrected (`UtcOffsetText`), not the one written at lines 574-583 (see Findings) |
| LoadState.PredicatesSeparateCases | viewmodel/MusicCleanArchitecture.swift:211-230 | each predicate holds for its own case only, and all are false exactly for `.failure` |
| LoadState.StartWorking | picker/CitlyListDemo.swift:281-285 | `.failure` and `.success` become `.working`; every other state is kept as it is |
| LoadState.StartWorkingIdempotent | picker/CitlyListDemo.swift:281-285 | starting work twice is starting it once |
| Music.RawValue | viewmodel/MusicCleanArchitecture.swift:11-23 | every genre has a non-empty raw value, and none is "All" |
| Music.ScopeTitle | viewmodel/MusicCleanArchitecture.swift:57-64 | a non-empty title, reading "All" exactly for `.all` |
| Music.ScopeTitlesDistinct | viewmodel/MusicCleanArchitecture.swift:11-23 | no two scopes share a title |
| Music.ScopeAndTextCombine | viewmodel/MusicCleanArchitecture.swift:290-299 | a genre scope keeps exactly the "All" scope's matches that carry the genre; with empty text only the scope decides |
| Music.FilterSongs | viewmodel/MusicCleanArchitecture.swift:288-301 | exactly the songs in scope that match the text in their title or joined genre names |
| Music.FilterSongsKeepsOrder | viewmodel/MusicCleanArchitecture.swift:288-301 | the filtered list is an order-preserving subsequence |
| Music.UnfilteredShowsAll | viewmodel/MusicCleanArchitecture.swift:288-301 | `.all` with empty text gives all songs |
| Music.UsedGenres | viewmodel/MusicCleanArchitecture.swift:260 | exactly the genres some song has, ascending by title |
| Music.AvailableGenres | viewmodel/MusicCleanArchitecture.swift:260-261 | `.all` first, then a scope for exactly each used genre |
| Music.AvailableGenresAscending | viewmodel/MusicCleanArchitecture.swift:261 | the genre scopes are in strictly ascending title order |
| Music.MusicRepository.FetchAllSongs | viewmodel/MusicCleanArchitecture.swift:136-154 | a cached list is returned unchanged; otherwise the source's list is stored under key 1, unless the wait is cancelled |
| Music.FetchTwice | viewmodel/MusicCleanArchitecture.swift:136-154 | after one successful fetch a later fetch returns the same list whatever the source holds |
| Music.MusicViewModel.GetAllSongs | viewmodel/MusicCleanArchitecture.swift:252-272 | success shows all songs and rebuilds the genre scopes; failure shows the error |
| Music.MusicViewModel.FilterSongsFor | viewmodel/MusicCleanArchitecture.swift:277-318 | success shows the filtered songs; a cancelled failure stays working; another failure is shown |
| Documents.FromRange | document/DocumentProgressPicker.swift:81-94 | the bounds each range form gives; a count in 1...Int.max is valid exactly when within them |
| Documents.AllowsMultipleSelection | document/DocumentProgressPicker.swift:116-136 | multiple selection exactly when the range's upper bound exceeds one |
| Documents.ValidCountsContiguous | document/DocumentProgressPicker.swift:139-141 | the valid counts form an interval: a count between two valid ones is valid |
| Documents.ErrorDescription | document/DocumentProgressPicker.swift:54-67 | the "exactly" message exactly when the bounds agree; a read error ends with the underlying description |
| Documents.ExactCountMessagesDiffer | document/DocumentProgressPicker.swift:56-61 | different exact counts give different messages |
| Documents.DefaultSelectionRange | document/DocumentProgressPicker.swift:81-94 | `...3` allows multiple files, accepts counts up to 3, and rejects 4 with "Please select between 1 and 3 files." |
| Documents.FirstWithId | document/DocumentProgressPicker.swift:37-44 | the first document with the id, absent exactly when none has it |
| Documents.FirstWithIdAppend | document/DocumentProgressPicker.swift:27-44 | appending a document never changes an earlier lookup |
| Documents.DocumentModelManager.AddDocument | document/DocumentProgressPicker.swift:27-34 | the store is the old store plus the document |
| Documents.DocumentModelManager.GetFilename | document/DocumentProgressPicker.swift:37-39 | the name of the first document with the id, absent exactly when none has it |
| Documents.DocumentModelManager.GetFilePath | document/DocumentProgressPicker.swift:42-44 | exactly the (optional) path of the first document with the id; nothing when no document has it |
| Documents.ImportedFromReadableFiles | document/DocumentProgressPicker.swift:228-252 | every imported document comes from a readable file, with that file's id, data, name and path |
| Documents.ImportedNext | document/DocumentProgressPicker.swift:229-251 | a readable file adds exactly its document and keeps the error; an unreadable one adds nothing and becomes the error |
| Documents.DocumentHandler.ImportAll | document/DocumentProgressPicker.swift:228-252 | the store gains the readable files' documents in order, the list shows the store when anything was imported, and the error is the last read failure |
| Documents.DocumentHandler.ImportFile | document/DocumentProgressPicker.swift:229-251 | a readable file is appended to the store and the list is refreshed; an unreadable one changes only the error |
| Documents.LastReadError | document/DocumentProgressPicker.swift:244-250 | the error changes only when a read fails |
| Documents.DocumentHandler.HandleFileImporter | document/DocumentProgressPicker.swift:217-256 | an importer failure or a bad count sets the error; otherwise readable files are added to the store and the list, and the last read error is recorded |
| TriStateToggle.Tap | fields/tristate.swift:24-32 | a tap always changes the state, and gives confirmed exactly from indeterminate |
| TriStateToggle.TapCycle | fields/tristate.swift:24-32 | three taps return to the start, through three distinct states |
| TriStateToggle.ColorForState | fields/tristate.swift:73-82 | primary exactly for indeterminate |
| TriStateToggle.TintColorForState | fields/tristate.swift:84-93 | no tint exactly for indeterminate, otherwise the state's colour |
| TriStateToggle.StateDescription | fields/tristate.swift:128-137 | the toggle's state description is the button's accessibility label |
| TriStateToggle.StatesDistinguishable | fields/tristate.swift:73-104 | different states have different colours and labels |
| TriStateToggle.AccessibilityLabel | fields/tristate.swift:95-104 | a non-empty label, reading "Indeterminate" exactly when the state has no tint |
| TriStateToggle.StrikethroughOnlyWhenRed | fields/tristate.swift:37 | the label is struck through exactly when it is drawn red, and then inside a tinted border |
| TriStateToggle.DescriptionIgnoresState | fields/tristate.swift:241-248 | a tag's toggle reads the tag's name whatever its state; it reads like the "All" toggle only for a tag named "All" |
| TriStateToggle.BorderFor | fields/tristate.swift:43-53 | a tinted border exactly when the state has a tint |
| TriStateToggle.TriStatePlayground.IsOn | fields/tristate.swift:118-121 | on exactly when the tint is green |
| TriStateToggle.TriStatePlayground.SetOn | fields/tristate.swift:118-121 | setting the toggle confirms the state, which reads back as on |
| TriStateToggle.TriStatePlayground.TapButton | fields/tristate.swift:24-32 | the state becomes its tap successor |
| TriStateToggle.TagOptionOf | fields/tristate.swift:250-257 | absent exactly for `.all`, otherwise the wrapped tag |
| TriStateToggle.InitialFilterTags | fields/tristate.swift:294 | `.all` followed by each movie tag in order |
| TriStateToggle.FirstIndexOf | fields/tristate.swift:325 | the first index holding the item, absent exactly when it is not there |
| TriStateToggle.AllIndeterminate | fields/tristate.swift:331-339 | same length and descriptions, and every tag indeterminate with its id kept |
| TriStateToggle.AllIndeterminateIdempotent | fields/tristate.swift:331-339 | resetting twice is resetting once |
| TriStateToggle.FilterTagGroup.UpdateTagOptionState | fields/tristate.swift:321-329 | the first entry equal to the item takes the new state; nothing changes for `.all` or a missing item |
| TriStateToggle.FilterTagGroup.SetAllTagsToIndeterminate | fields/tristate.swift:331-339 | the loop leaves exactly `AllIndeterminate` of the old tags |
| TriStateToggle.FilterTagGroup.SetLabel | fields/tristate.swift:303-306 | selecting a tag clears "all selected" |
| TriStateToggle.FilterTagGroup.SetAllSelected | fields/tristate.swift:309-314 | switching "All" on from off resets every tag; writing the value it already has, or switching it off, leaves the tags |
| Otp.ClampLength | OTPVerificationCode.swift:30 | the length is clamped into 1...8 and kept when already inside |
| Otp.Sanitize | OTPVerificationCode.swift:57-60 | at most six characters, all numeric, a prefix of the numeric characters, and all of them when fewer than six |
| Otp.SanitizeIdempotent | OTPVerificationCode.swift:57-60 | sanitising twice is sanitising once |
| Otp.OtpDigit | OTPVerificationCode.swift:93-96 | the digit at the index, empty exactly past the code |
| Otp.SelectedIsFirstEmpty | OTPVerificationCode.swift:42 | a cell is highlighted exactly when it is empty and first or after a filled cell |
| Otp.CellsShowCode | OTPVerificationCode.swift:41-96 | the cells spell out a code that fits, and the selected cell is the one after the last digit |
| Otp.CellsPrefix | OTPVerificationCode.swift:93-96 | with fewer cells than digits the cells show the code's prefix |
| Otp.OtpField.OnChange | OTPVerificationCode.swift:57-60 | the code becomes the sanitised input, which the cells show in full |
| Otp.OtpViewModel.Tick | OTPVerificationCode.swift:117-127 | a running timer counts down one second and expires and stops at zero; a stopped one changes nothing |
| Otp.OtpViewModel.ResendOtpCode | OTPVerificationCode.swift:132-141 | the countdown restarts from 240 seconds, not expired |
| Otp.OtpViewModel.IsOtpValid | OTPVerificationCode.swift:143-149 | valid exactly for the test code, which also stops the timer |
| Otp.RunTimer | OTPVerificationCode.swift:117-127 | after n firings from a fresh start the code has expired exactly when n reaches 240 |
| Birthday.CalculateBirthday | BirthdayPickerView.swift:78-102 | the reference month and day, in the year giving the age, one earlier when this year's birthday is still ahead |
| Birthday.AgeFromBirthday | BirthdayPickerView.swift:104-109 | whole years rounded toward zero: for a past birthday the year difference, one less exactly while this year's birthday is ahead; for a future one never positive, one more exactly when its day of the year has passed |
| Birthday.AgeAntisymmetric | BirthdayPickerView.swift:104-109 | counting back from the later date gives the same whole years, negated |
| Birthday.FutureBirthdayWithinAYearIsZero | BirthdayPickerView.swift:104-109 | 2027-03-01 against 2026-10-15 is age 0, and 2027-11-01 is -1 |
| Birthday.AgeRoundTrip | BirthdayPickerView.swift:39-54 | the date set for a stepper age (0 and up) gives that age back |
| Birthday.BirthdayRoundTrip | BirthdayPickerView.swift:39-54 | for a date up to today, the birthday recomputed for its age is that date |
| Birthday.StepUp | BirthdayPickerView.swift:44 | the stepper stays within 0...130 and adds one exactly below 130 |
| Birthday.StepDown | BirthdayPickerView.swift:44 | the stepper stays within 0...130 and subtracts one exactly above 0 |
| Birthday.BirthdayNotInFuture | BirthdayPickerView.swift:78-102 | a stepper age never gives a birthday after today |
| Birthday.YoungAgesStayInDateRange | BirthdayPickerView.swift:9-18 | stepper ages up to today's year minus 1921 give birthdays inside the selectable range |
| Birthday.OldAgesLeaveDateRange | BirthdayPickerView.swift:9-18 | ages above today's year minus 1920 give birthdays outside the selectable range |
| AdaptiveSheet.SizeClassChange | navigation/AppleMapsSkeletton.swift:41-50 | going compact presents exactly an expanded sheet; going regular expands exactly a presented one and dismisses it; other changes do nothing |
| AdaptiveSheet.CompactRegularCompact | navigation/AppleMapsSkeletton.swift:41-50 | regular then compact again restores whether the sheet is presented |
| AdaptiveSheet.RegularCompactRegular | navigation/AppleMapsSkeletton.swift:41-50 | compact then regular again restores the position |
| AdaptiveSheet.AdaptiveSheetModifier.HandleSizeClassChange | navigation/AppleMapsSkeletton.swift:41-50 | the handler computes `SizeClassChange` on its fields |
| AdaptiveSheet.AdaptiveSheetModifier.OnAppear | navigation/AppleMapsSkeletton.swift:33-37 | appearing in the regular size class dismisses the sheet |
| AdaptiveSheet.CalculatedOffset | navigation/AppleMapsSkeletton.swift:127-138 | on a screen at least 140 points tall the sheet's top lies on screen, and a collapsed sheet shows at least 80 points |
| AdaptiveSheet.ExpandedAboveCollapsed | navigation/AppleMapsSkeletton.swift:127-138 | above 160 points the expanded sheet sits higher |
| AdaptiveSheet.SnapAsWritten | navigation/AppleMapsSkeletton.swift:104-123 | drags past 100 points force collapse or expansion |
| AdaptiveSheet.ShortDragUpCollapsesExpandedSheet | navigation/AppleMapsSkeletton.swift:108 | a short drag up from the expanded sheet collapses it |
| AdaptiveSheet.Snap | navigation/AppleMapsSkeletton.swift:104-123 | long drags force the position; a short one snaps to the nearer point, measured from the start position |
| AdaptiveSheet.ShortDragKeepsPosition | navigation/AppleMapsSkeletton.swift:104-123 | a short drag less than half the gap keeps the position |
| AdaptiveSheet.SnapAgreesFromCollapsed | navigation/AppleMapsSkeletton.swift:104-123 | both rules agree for drags from the collapsed sheet |
| AdaptiveSheet.SnapMonotone | navigation/AppleMapsSkeletton.swift:104-123 | dragging further down never turns a collapse into an expansion |
| AdaptiveSheet.BottomSheet.DragChanged | navigation/AppleMapsSkeletton.swift:71-75 | the offset follows the finger |
| AdaptiveSheet.BottomSheet.HandleDragEnd | navigation/AppleMapsSkeletton.swift:104-123 | the position becomes the corrected `Snap` of the old position and offset, which measures a short drag from the position it started at rather than from the collapsed offset as line 108 does (see Findings); the offset returns to zero |
| SymbolPicker.SearchSymbols | symbolpicker.swift:86-88 | exactly the symbols containing the term ignoring case |
| SymbolPicker.SearchKeepsOrder | symbolpicker.swift:86-88 | the result keeps the list's order |
| SymbolPicker.SearchIgnoresCase | symbolpicker.swift:86-88 | the case of the term does not matter |
| SymbolPicker.EmptyTermMatchesNothing | symbolpicker.swift:55-57 | searching for "" would find no symbol, since Foundation's `contains("")` is false; the empty term shows every symbol only through the `isEmpty` guard |
| SymbolPicker.NonEmptyTermSearchesSubstrings | symbolpicker.swift:86-88 | a non-empty term keeps exactly the symbols whose lower-cased name contains the lower-cased term |
| SymbolPicker.Shown | symbolpicker.swift:37 | the empty-data view exactly for no symbols, otherwise the symbols |
| SymbolPicker.SymbolViewModel.LoadSymbols | symbolpicker.swift:30-42 | a loaded list is stored and shown; a failure leaves the grid working |
| SymbolPicker.SymbolViewModel.PerformSearch | symbolpicker.swift:55-81 | an empty term shows all symbols; any other shows its matches, or empty data |
| FontExplorer.FlagsDistinct | docdesign/oldfontexplorer.swift:108-118 | no two traits share a flag bit |
| FontExplorer.ExtractTraits | docdesign/oldfontexplorer.swift:108-118 | a trait is extracted exactly when its flag is set |
| FontExplorer.HashIgnoresId | docdesign/oldfontexplorer.swift:60-63 | the hash ignores the family's id, and equal hash inputs mean the same name and fonts |
| FontExplorer.SameFamilyIsEquivalence | docdesign/oldfontexplorer.swift:65-67 | equality ignores the id, is an equivalence, and agrees with the hash inputs |
| FontExplorer.EqualFamiliesTie | docdesign/oldfontexplorer.swift:182-189 | neither order puts one of two equal families before the other |
| FontExplorer.SortPredicateIsStrictWeakOrder | docdesign/oldfontexplorer.swift:182-189 | both sort orders are strict weak orders, tied exactly on equal name or equal count |
| FontExplorer.SortedTraits | docdesign/oldfontexplorer.swift:250-252 | exactly the traits of the set |
| FontExplorer.SortedTraitsAscending | docdesign/oldfontexplorer.swift:250-252 | the traits are listed in strictly ascending raw-value order |
| Localizable.StringsOf | localizable_scripts/Extract_keys.py:21 | `data['strings'].items()` succeeds exactly for an object holding an object under "strings" |
| Localizable.Catalog | localizable_scripts/Merge_localizable.py:17 | the template with "en", the strings and "1.0" |
| Localizable.PairOf | localizable_scripts/Merge_localizable.py:26 | a two-item list with a string key is that key and value; other lengths are a `ValueError`, scalars a `TypeError` |
| Localizable.PairsUpdate | localizable_scripts/Merge_localizable.py:26 | updating from pairs succeeds exactly when every element is a pair, and stores exactly the pairs' keys |
| Localizable.LastPairWins | localizable_scripts/Merge_localizable.py:26 | each key holds the value of its last pair |
| Localizable.UpdateSourceCases | localizable_scripts/Merge_localizable.py:23-26 | an object's entries, a list's pairs, nothing for `[]` or `""`, a `TypeError` for a scalar, and the lookup's own error when `strings` is missing |
| Localizable.PairListExample | localizable_scripts/Merge_localizable.py:26 | `[["a", 1], ["a", 2]]` stores `"a": 2` |
| Localizable.MergedStrings | localizable_scripts/Merge_localizable.py:20-26 | the merge succeeds exactly when `update` accepts every file's strings section |
| Localizable.MergedKeys | localizable_scripts/Merge_localizable.py:20-26 | the merged keys are exactly the keys of some file |
| Localizable.LastFileWins | localizable_scripts/Merge_localizable.py:26 | each merged value comes from the last file holding the key |
| Localizable.OnlyStringsAreRead | localizable_scripts/Merge_localizable.py:23 | files whose `strings` lookups agree merge alike: nothing else in a file is read |
| Localizable.MergeLocalizable | localizable_scripts/Merge_localizable.py:17-26 | the loop gives the catalog of the merged strings, or the first error |
| Localizable.FirstErrorStops | localizable_scripts/Merge_localizable.py:20-26 | once a file fails, later files do not matter |
| Localizable.ExtractKeys | localizable_scripts/Extract_keys.py:7-24 | the template holding exactly the strings whose key starts with "paywall_" |
| Localizable.ExtractIdempotent | localizable_scripts/Extract_keys.py:21 | extracting twice is extracting once |
| Localizable.PyContains | localizable_scripts/Del_language.py:19 | `in` on a dict tests its keys, and fails on a number, a boolean or null |
| Localizable.WithoutLanguage | localizable_scripts/Del_language.py:19-20 | an entry without localizations is kept; otherwise "es" is removed from its localizations; an entry that is not an object is an `AttributeError` |
| Localizable.WithoutLanguageAll | localizable_scripts/Del_language.py:18-20 | same keys, each entry without "es", failing exactly when an entry fails |
| Localizable.NoEntryKeepsLanguage | localizable_scripts/Del_language.py:18-20 | afterwards no entry has an "es" localization |
| Localizable.DeleteLanguage | localizable_scripts/Del_language.py:15-27 | the document with its strings replaced by the entries without "es", or the error |

## Left out

- Concurrency: `Task`, `@MainActor`, cancellation and debouncing are left out. Each asynchronous step is taken to run to completion before the next event, and cancellation is an input where the code branches on it.
- I/O is left out: reading bundle files, the file importer's reads, writing JSON, and the symbol list from the system. Each read is a parameter or an input `Result`.
- JSON key order and formatting are not modelled, because objects are maps.
- UI: views, animations, haptics, fonts and colours beyond the state-to-colour mapping are not modelled.
- The city repository's cache is not modelled: it has the same shape as `Music.MusicRepository.FetchAllSongs`.
- `CSVCityDataSource.readCSVFile` is not modelled, because it is file I/O.
- Loading of the font families (`UIFont.familyNames`) is not modelled, because it is a platform call. Only the sort predicate's order is proved; `sorted(by:)` itself is not.
- `fontForControlSize` and the `ListFormatter` description of traits are not modelled, because they are text formatting by the platform.
- `DocumentHandler.isLoading` is not modelled: its value depends on the order of main-actor tasks.
- `handleDrop` and `NSItemProvider` loading are not modelled, because they are platform drag-and-drop.
- `recoverySuggestion` texts are not modelled.
- Timer scheduling is not modelled: `Otp.OtpViewModel.Tick` is one firing, and `Otp.RunTimer` is n firings in a row.
- Calendar normalisation of dates such as 29 February in a non-leap year is not modelled, because dates are plain (year, month, day) triples.
- Lower-casing covers ASCII letters only, and accent folding is a parameter.
- `Localizable.PyContains`: `in` on a list or a string is only known to succeed; its value is left open.
- `Localizable.WithoutLanguage`: the contract says nothing about an entry whose `localizations` value is a list, a string or a scalar. The source would then run `in` and `del` on it.
- `TriStateToggle.FilterTagGroup.SetLabel` states only that "all selected" is cleared. The binding's write to the tag array is `UpdateTagOptionState`, which it calls.
- The sketch `DoubleMetaphone` class at metaphone.swift:21-47 is not modelled; the complete class is.
- `Localizable.MergedStrings`: a pair in a list of pairs whose key is a number, a boolean or null, and an element that is an object with two keys, are accepted by Python's `dict.update` but are reported as `OutsideModel`. The first gives keys that are not strings, and the second depends on key order, which the model does not keep.
- `CountrySearch.SearchCountries`, `Otp.Sanitize`, `Otp.CellsShowCode`, `CityCsv.ParseCsvLine`, `MetaphoneText` and `Metaphone.Step` count and walk a string by Unicode scalars, since a string is a sequence of characters here. Swift counts grapheme clusters instead. This affects the two-letter ISO-code test (metaphone.swift:735), the code's `prefix(6)` and `count` (OTPVerificationCode.swift:42, 57-60), the CSV parser's character loop (picker/CitlyListDemo.swift:133-156), and the Metaphone vowel test `"AEIOUY".contains(character)` (metaphone.swift:121) with every letter and window comparison of the rules, which compare `Character`s. They differ from the model only for text with combining marks or multi-scalar emoji.
- `Birthday.CalculateBirthday`, `Birthday.AgeFromBirthday` and `Birthday.InDateRange` compare calendar days only. On the anniversary day itself, a birth time later in the day than the current time lowers the source's age by one, which the model does not. The time of day carried by `Date`, and so the end of the range at the current instant, is not modelled.
- `SearchScope.title` (picker/CitlyListDemo.swift:34-43) is not modelled, because it is only a button caption and a log string.
- `AdaptiveSheet.CalculatedOffset` and `AdaptiveSheet.Snap` compute with exact `real` numbers where the source uses `CGFloat`. Floating-point rounding is ignored, which matters only for a drag ending exactly at the midpoint between the two snap positions.
- In `Metaphone`, the Swift cursor past the end of the word would trap. The model lets the integer cursor run past the end, and the loop then stops.
- `MetaphoneText.WindowIs`, `Metaphone.Encode`: a lookahead window or `index(_:offsetBy:)` that runs past the end of the word traps in the source, in `checkWordStart` (metaphone.swift:90-98), in `processB` (184, 190-191), in `processC` (199) and in the other rules' `offsetBy:` windows. The empty word and every one-letter word trap in `checkWordStart`, "CAT" traps on the four-letter window of `processC`, and a final B, as in "JOB", traps in `processB`. The model answers "no" for such a window, and `Encode` returns codes for these words.
- `Text.Less`, and with it `CityList.AvailableScopes`, `Music.UsedGenres` and `FontExplorer.SortPredicate`, compares strings as sequences of Unicode scalars. Swift's `String` `<` compares after Unicode canonical normalisation. The two agree on NFC-normalised text.

## Findings

| source | as written | input that shows it | evidently intended | confidence | as-written member | corrected member |
|---|---|---|---|---|---|---|
| picker/CitlyListDemo.swift:575-583 | the sign of the label is taken from the truncated hours, which are 0 for offsets between -1 hour and 0 | offset -1800 seconds gives "UTC+0:30" | "UTC-0:30", a label that reads back as the offset | not executed | CityList.AsWrittenLosesSign | CityList.UtcOffsetRoundTrip |
| navigation/AppleMapsSkeletton.swift:108 | the current point of a drag is measured from the collapsed offset, whatever position the drag started from | compact, height 800, fully expanded, drag of -50 points collapses the sheet | a short drag is measured from the start position and keeps it | not executed | AdaptiveSheet.ShortDragUpCollapsesExpandedSheet | AdaptiveSheet.ShortDragKeepsPosition |
