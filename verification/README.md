# GRFlex web: the rules inside the pages

The GRFlex marketing site is mostly presentation. This project models the
rules that sit inside its components, and proves what those rules promise:

- the roof material **estimator**: tins of waterproofing, activator bottles and
  matting rolls for a roof area and a season;
- the **find-a-supplier** page:
  - ranking suppliers by distance from a geocoded or device position;
  - two-per-page paging and the "Showing s-e of n" line;
  - the search and "use my location" state transitions;
  - acceptance of a geocoder response;
  - the map's recentring key;
  - the `tel:` link;
  - the "become a supplier" request form and its email test;
- the **contact** page's enquiry form: defaults, validation, submit and reset;
- the **hero carousel**: the slide index under the timer, keys, swipes and dots;
- the **navbar**: hide on scroll down, link routing to in-page sections
  (possibly by way of the home page), and the pending-hash scroll on arrival;
- the pinned **"Why GRFlex"** section: scroll progress to panel index.

Modules:

- `Numbers` (`numbers.dfy`): `Math.max` and `Math.min` on integers.
- `Text` (`text.dfy`): JavaScript `trim`, the `\s` class, `isEmail`, the
  whitespace strip and ASCII lower-casing. The `Option` type and the abstract
  number parser also live here.
- `Estimator` (`estimator.dfy`).
- `Locator` (`locator.dfy`): the supplier page's pure functions.
- `SupplierSearch` (`supplier_search.dfy`): the page state as a class.
- `Forms` (`forms.dfy`): what both forms share.
- `SupplierForm` (`supplier_form.dfy`).
- `ContactForm` (`contact.dfy`).
- `Carousel` (`carousel.dfy`).
- `Navbar` (`navbar.dfy`).
- `PinnedPanels` (`pinned_panels.dfy`).

Component state the source updates in place (React state together with its
refs) is a class whose methods carry `modifies` clauses. Handlers that wait
on the network or the browser are split at the wait, and what arrives is a
parameter:

- the geocoder's response or thrown error;
- the position callback;
- the form send's outcome.

`Number(...)` is an abstract partial function `Parser`: `None` stands for NaN
or an infinite result. The haversine distance is an abstract function
`DistanceKm`. Numbers are exact reals and unbounded integers, not doubles.

## Model

| member | source | states |
|---|---|---|
| Text.TrimStart | src/pages/FindSupplierPage.jsx:1102 | `trim` drops exactly a whitespace prefix; what is left does not start with whitespace |
| Text.TrimEnd | src/pages/FindSupplierPage.jsx:1102 | `trim` drops exactly a whitespace suffix; what is left does not end with whitespace |
| Text.Trim | src/pages/FindSupplierPage.jsx:1102 | `trim` never lengthens, leaves whitespace at neither end, and returns a value that has none at its ends unchanged |
| Text.TrimEmptyIff | src/pages/FindSupplierPage.jsx:771-775 | a field is blank after `trim` exactly when all its characters are whitespace |
| Text.TrimIdempotent | src/pages/ContactPage.jsx:66 | trimming a trimmed value changes nothing |
| Text.EmptyIsNotEmail | src/pages/FindSupplierPage.jsx:1101-1104 | an empty value is not an email |
| Text.IsEmail | src/pages/FindSupplierPage.jsx:1101-1104 | `isEmail(v)` tests the trimmed value; EmailShapeIff and EmailCharacterisation state which values pass |
| Text.IndexOf | src/pages/FindSupplierPage.jsx:1103 | the first occurrence of a character, or the length when absent |
| Text.EmailShapeIff | src/pages/FindSupplierPage.jsx:1101-1104 | splitting at the first `@` decides exactly the language of `^[^\s@]+@[^\s@]+\.[^\s@]+$` |
| Text.EmailCharacterisation | src/pages/FindSupplierPage.jsx:1101-1104 | `isEmail(v)` holds iff the trimmed value has no whitespace, exactly one `@` with a non-empty part before it, and after it a `.` with a character on each side |
| Text.StripWhitespace | src/pages/FindSupplierPage.jsx:731 | `replace(/\s+/g, "")` leaves no whitespace, never lengthens, takes every character from the input, and leaves a string without whitespace unchanged |
| Text.StripConcat | src/pages/FindSupplierPage.jsx:731 | stripping distributes over concatenation, so every other character is kept in order |
| Text.StripKeeps | src/pages/FindSupplierPage.jsx:731 | every character that is not whitespace survives the strip |
| Text.Utf16Units | src/pages/ContactPage.jsx:67 | a character counts as two code units exactly when it lies outside the Basic Multilingual Plane, otherwise one |
| Text.Utf16Length | src/pages/ContactPage.jsx:67 | a string's `length` lies between its character count and twice that, and equals the character count exactly when no character lies outside the Basic Multilingual Plane |
| Text.Utf16LengthConcat | src/pages/ContactPage.jsx:67 | the `length` of a concatenation is the sum of the lengths |
| Text.ToLowerChar | src/pages/FindSupplierPage.jsx:768 | each upper-case ASCII letter maps to its own lower-case letter, and every other character is kept |
| Text.ToLower | src/pages/FindSupplierPage.jsx:768 | lower-casing keeps the length and maps every character |
| Text.EmailKey | src/pages/FindSupplierPage.jsx:768 | the comparison key has the trimmed value's length and no upper-case ASCII letter |
| Text.ToLowerIdempotent | src/pages/FindSupplierPage.jsx:768 | lower-casing twice is lower-casing once |
| Text.EmailKeyIdempotent | src/pages/FindSupplierPage.jsx:768 | the key of a key is the key itself: it is already trimmed and lower case |
| Estimator.Ceil | src/components/CalculatorSection.jsx:64 | `Math.ceil` is the least integer not below its argument |
| Estimator.ReplaceFirstComma | src/components/CalculatorSection.jsx:40 | only the first `,` becomes `.`; everything else is kept |
| Estimator.SafeNum | src/components/CalculatorSection.jsx:39-42 | `safeNum` is never negative; it is positive iff the comma-fixed text parses to a finite positive number, and then it is that number |
| Estimator.AreaM2 | src/components/CalculatorSection.jsx:44-54 | the area is never negative |
| Estimator.DimsArea | src/components/CalculatorSection.jsx:45-49 | in dims mode the area is length × width, and it is 0 iff either dimension is invalid |
| Estimator.AreaModeIgnoresUnit | src/components/CalculatorSection.jsx:51-53 | in area mode the unit makes no difference; the area is `safeNum` of the input |
| Estimator.Compute | src/components/CalculatorSection.jsx:44-90 | the estimate's area is the computed roof area |
| Estimator.ApproxKg | src/components/CalculatorSection.jsx:57-60 | the material weight is never negative, positive exactly for a positive area, and then 2 kg per m² |
| Estimator.Tins | src/components/CalculatorSection.jsx:62-65 | no material needs no tin; otherwise the least count of 15 kg tins holding it, at least one |
| Estimator.Bottles | src/components/CalculatorSection.jsx:67-71 | one bottle per tin in summer, two in winter |
| Estimator.MattingM2 | src/components/CalculatorSection.jsx:73-76 | the matting is the area plus 5%, so never less than a non-negative area |
| Estimator.MattingRolls | src/components/CalculatorSection.jsx:78-88 | no matting needs no roll; otherwise as many 180 m² rolls as fit whole, then the least count of 25 m² rolls covering the rest |
| Estimator.ZeroAreaZeroEstimate | src/components/CalculatorSection.jsx:57-90 | no area gives 0 kg, 0 tins, 0 bottles, 0 m² matting, no rolls and no input |
| Estimator.TinsLeastCover | src/components/CalculatorSection.jsx:57-65 | for a positive area, tins is the least count of 15 kg tins holding 2 kg/m², and at least 1 |
| Estimator.WinterDoublesActivator | src/components/CalculatorSection.jsx:67-71 | summer bottles equal the tins; winter has the same tins and twice the bottles |
| Estimator.RollsCover | src/components/CalculatorSection.jsx:73-88 | long rolls = ⌊1.05·area/180⌋; the remainder lies in [0,180); short rolls are the least count covering it, between 0 and 8; together the rolls cover the matting area |
| Estimator.RollTotalPositive | src/components/CalculatorSection.jsx:90-105 | with input there is always at least one roll, so the one-roll fallback is never reached |
| Estimator.RecommendationParts | src/components/CalculatorSection.jsx:99-108 | no input shows a dash; otherwise a long part iff there are long rolls, a short part iff there are short rolls, each at most once and the long one first, and one 25 m roll when there are neither |
| Estimator.RollTotalText | src/components/CalculatorSection.jsx:429-432 | the displayed roll total is never 0 |
| Estimator.DisplayedRollsExact | src/components/CalculatorSection.jsx:429-432 | with input the displayed total is the real total, and "Roll" is singular iff it is 1 |
| Estimator.ReplaceFirstCommaNoComma | src/components/CalculatorSection.jsx:40 | text without a comma is parsed as typed |
| Estimator.DefaultAreaEstimate | src/components/CalculatorSection.jsx:30-36 | the default 40 m² gives 6 tins, 6 bottles (12 in winter), 0 long and 2 short rolls |
| Estimator.DefaultDimsEstimate | src/components/CalculatorSection.jsx:34-36 | the default 8 m × 5 m gives the same estimate |
| Estimator.DefaultEstimateFor40 | src/components/CalculatorSection.jsx:57-88 | any input with a 40 m² area gives 6 tins, 2 short rolls, and 6 or 12 bottles |
| Locator.Score | src/pages/FindSupplierPage.jsx:86-91 | each supplier keeps its record and gains its distance in miles, in input order |
| Locator.MilesTo | src/pages/FindSupplierPage.jsx:88-89 | the distance in miles is zero exactly when the distance in km is, and never negative when that is not |
| Locator.WithDistance | src/pages/FindSupplierPage.jsx:92 | the entries at one distance, in order, are never more than the list |
| Locator.WithDistanceCons | src/pages/FindSupplierPage.jsx:92 | a head entry is among the entries at its distance, ahead of the rest |
| Locator.WithDistanceMembers | src/pages/FindSupplierPage.jsx:92 | the entries at a distance come from the list and are at that distance |
| Locator.Insert | src/pages/FindSupplierPage.jsx:92 | insertion adds exactly one entry, at the front or after the old head |
| Locator.InsertSorted | src/pages/FindSupplierPage.jsx:92 | insertion keeps a sorted list sorted |
| Locator.SortByDistance | src/pages/FindSupplierPage.jsx:92 | the sort is a permutation into non-decreasing distance order |
| Locator.Rank | src/pages/FindSupplierPage.jsx:86-92 | the ranking has one entry per supplier |
| Locator.InsertWithDistance | src/pages/FindSupplierPage.jsx:92 | insertion places the new entry before all entries of equal distance it was inserted among |
| Locator.SortKeepsEqualDistanceOrder | src/pages/FindSupplierPage.jsx:92 | the sort is stable: entries of equal distance keep their input order |
| Locator.Suppliers | src/pages/FindSupplierPage.jsx:86-91 | the underlying supplier records, index by index |
| Locator.InsertSuppliers | src/pages/FindSupplierPage.jsx:92 | insertion adds exactly the new supplier record |
| Locator.SortSuppliers | src/pages/FindSupplierPage.jsx:92 | sorting neither adds nor loses a supplier record |
| Locator.RankSpec | src/pages/FindSupplierPage.jsx:119-125 | the ranking is a permutation of the suppliers; each entry has its own distance; it is sorted by distance; equal distances keep input order |
| Locator.SupplierAtPointRanksFirst | src/pages/FindSupplierPage.jsx:119-125 | searching from a supplier's own location ranks that supplier first, at distance 0, when no supplier before it in the list stands on the same point |
| Locator.FirstAtPointRanksFirst | src/pages/FindSupplierPage.jsx:86-92 | the ranking from a point starts with the first listed supplier at distance 0 from it |
| Locator.FirstInClass | src/pages/FindSupplierPage.jsx:92 | the first entry at a distance heads the entries at that distance |
| Locator.SortedStartsAtZero | src/pages/FindSupplierPage.jsx:92 | a sorted list of non-negative distances holding a zero starts at zero |
| Locator.RankNotNegative | src/pages/FindSupplierPage.jsx:86-92 | with non-negative distances every ranked entry is at a non-negative distance |
| Locator.RankStartsAtZero | src/pages/FindSupplierPage.jsx:86-92 | with non-negative distances, a ranking that includes a supplier at distance 0 starts at distance 0 |
| Locator.InWithDistance | src/pages/FindSupplierPage.jsx:92 | every entry is among the entries at its own distance |
| Locator.WithDistanceTail | src/pages/FindSupplierPage.jsx:92 | two lists that agree at every distance and share a head agree after it |
| Locator.SameHead | src/pages/FindSupplierPage.jsx:92 | two sorted lists that agree at every distance start alike |
| Locator.StableSortUnique | src/pages/FindSupplierPage.jsx:92 | a sorted list is determined by its entries at each distance, so any stable sort gives this ranking |
| Locator.BothEmpty | src/pages/FindSupplierPage.jsx:92 | lists that agree at every distance are empty together |
| Locator.PageCount | src/pages/FindSupplierPage.jsx:49-52 | no pages without results; otherwise the least count of 2-entry pages holding them |
| Locator.Visible | src/pages/FindSupplierPage.jsx:54-57 | a page shows at most 2 entries, entries 2·page onward, and none past the end |
| Locator.PagesCoverResults | src/pages/FindSupplierPage.jsx:49-57 | every result appears on a valid page, at its position |
| Locator.PageBeyondEndEmpty | src/pages/FindSupplierPage.jsx:49-57 | a page is empty exactly when it is past the last page |
| Locator.ShowingMatchesVisible | src/pages/FindSupplierPage.jsx:145-150 | on a valid page, "Showing s-e of n" has 1 ≤ s ≤ e ≤ n and counts exactly the entries shown |
| Locator.ShowingText | src/pages/FindSupplierPage.jsx:145-150 | no line without results; otherwise the total is the result count, the end is within it and the start is at least 1 |
| Locator.PrevPage | src/pages/FindSupplierPage.jsx:621 | one page back, never below the first |
| Locator.NextPage | src/pages/FindSupplierPage.jsx:631 | one page on, never past the last |
| Locator.PagerKeepsPageValid | src/pages/FindSupplierPage.jsx:621-631 | Prev gives max(0, p−1) and Next min(count−1, p+1), both valid pages |
| Locator.MapCenter | src/pages/FindSupplierPage.jsx:60-64 | the client point, else the first supplier, else the Birmingham fallback |
| Locator.AcceptGeocode | src/pages/FindSupplierPage.jsx:1133-1146 | a location iff the response is ok, the body a non-empty array and the first hit's coordinates finite; its caption is the display name if non-empty, else the query |
| Locator.OnlyFirstHitCounts | src/pages/FindSupplierPage.jsx:1139-1146 | hits after the first never matter |
| Locator.TelHref | src/pages/FindSupplierPage.jsx:731 | the link is `tel:` followed by characters of the number only, none of them whitespace, no longer than the number |
| Locator.TelHrefConcat | src/pages/FindSupplierPage.jsx:731 | the number's characters reach the link in order: a split number gives the first part's link followed by the stripped rest |
| SupplierSearch.SearchPage.constructor | src/pages/FindSupplierPage.jsx:36-41 | the page starts on the default query with no results and no error |
| SupplierSearch.SearchPage.SetQuery | src/pages/FindSupplierPage.jsx:361 | typing replaces the query |
| SupplierSearch.SearchPage.SearchStart | src/pages/FindSupplierPage.jsx:66-77 | every search clears the error and resets the page; a blank trimmed query stops with its message and keeps the results |
| SupplierSearch.SearchPage.SearchDone | src/pages/FindSupplierPage.jsx:79-101 | a hit replaces client point and results with the ranking from it; a miss or a thrown error sets its message and keeps both; the search ends |
| SupplierSearch.SearchPage.LocateStart | src/pages/FindSupplierPage.jsx:103-112 | the same reset; without geolocation a message, results kept |
| SupplierSearch.SearchPage.OnPosition | src/pages/FindSupplierPage.jsx:114-129 | the position replaces client point and results with the ranking from it |
| SupplierSearch.SearchPage.OnPositionError | src/pages/FindSupplierPage.jsx:130-133 | a denied or failed position sets its message and keeps the results |
| SupplierSearch.SearchPage.Prev | src/pages/FindSupplierPage.jsx:621 | Prev moves back one page, never below the first, keeping the page valid |
| SupplierSearch.SearchPage.Next | src/pages/FindSupplierPage.jsx:631 | Next moves on one page, never past the last, keeping the page valid |
| SupplierSearch.SearchPage.VisibleResults | src/pages/FindSupplierPage.jsx:54-57 | at most 2 cards, all from the results, and some whenever there are results |
| SupplierSearch.ToFixed6 | src/pages/FindSupplierPage.jsx:993 | the key's sign is the coordinate's, and its magnitude is the coordinate's size in millionths rounded to the nearest whole number, halves up |
| SupplierSearch.SameKeyClose | src/pages/FindSupplierPage.jsx:993-997 | coordinates with the same key are less than a millionth of a degree apart |
| SupplierSearch.MapAutoCenter.Update | src/pages/FindSupplierPage.jsx:991-998 | the map moves iff there is a target whose key differs from the last one, which it then remembers |
| Forms.BlankIff | src/pages/ContactPage.jsx:61-65 | "required" fails exactly for whitespace-only values |
| Forms.HelperText | src/pages/ContactPage.jsx:244 | a field shows its error only once touched, otherwise a single space |
| Forms.Blank | src/pages/ContactPage.jsx:61-65 | "required" fails when nothing is left after `trim`; BlankIff characterises it |
| Forms.ShowsError | src/pages/ContactPage.jsx:244 | a field's error is on screen when it is touched and has an error |
| SupplierForm.Set | src/pages/FindSupplierPage.jsx:766 | `setField` changes exactly the named field |
| SupplierForm.Errors | src/pages/FindSupplierPage.jsx:770-781 | one entry per failing check, each with its message; the mismatch message replaces "Confirm your email." when the confirmation is valid |
| SupplierForm.EmailsMatch | src/pages/FindSupplierPage.jsx:768 | addresses equal once trimmed match, and matching addresses have trimmed texts of the same length (only letter case may differ, by EmailKey) |
| SupplierForm.Fails | src/pages/FindSupplierPage.jsx:770-781 | the seven checks of `errors`; CanSubmitIff states them in full |
| SupplierForm.Message | src/pages/FindSupplierPage.jsx:770-781 | the message of each check, the confirmation's depending on whether it is a valid email |
| SupplierForm.CanSubmit | src/pages/FindSupplierPage.jsx:783 | `canSubmit` is the absence of errors; CanSubmitIff characterises it |
| SupplierForm.CanSubmitIff | src/pages/FindSupplierPage.jsx:766-783 | `canSubmit` iff the five text fields are not whitespace-only, both emails are valid, and they are equal after trim and lower-casing |
| SupplierForm.NoFailingCheck | src/pages/FindSupplierPage.jsx:770-783 | no errors exactly when none of the seven checks fails |
| SupplierForm.MismatchOnlyWhenBothValid | src/pages/FindSupplierPage.jsx:779 | "Emails do not match." appears only when both emails are valid and their keys differ |
| SupplierForm.EmptyFormFails | src/pages/FindSupplierPage.jsx:751-781 | each of the seven checks fails on the empty form |
| SupplierForm.EmptyConfirmMessage | src/pages/FindSupplierPage.jsx:777-779 | on the empty form the confirmation asks to confirm, not that the emails differ |
| SupplierForm.EmptyFormErrors | src/pages/FindSupplierPage.jsx:751-781 | the empty form has all seven errors, the confirmation with "Confirm your email." |
| SupplierForm.SubmittedFormIsEmpty | src/pages/FindSupplierPage.jsx:808-817 | the form cleared after a send cannot be sent again as it is |
| SupplierForm.BecomeSupplierForm.constructor | src/pages/FindSupplierPage.jsx:752-764 | empty fields, nothing touched, no status |
| SupplierForm.BecomeSupplierForm.SetField | src/pages/FindSupplierPage.jsx:766 | typing changes exactly one field |
| SupplierForm.BecomeSupplierForm.Blur | src/pages/FindSupplierPage.jsx:838 | leaving a field marks it touched |
| SupplierForm.BecomeSupplierForm.Submit | src/pages/FindSupplierPage.jsx:785-823 | an invalid form only becomes fully touched; a sent form is cleared, untouched, thanked and closed on success, and kept with the failure message otherwise |
| ContactForm.Set | src/pages/ContactPage.jsx:36 | `setField` changes exactly the named field |
| ContactForm.Errors | src/pages/ContactPage.jsx:57-69 | one entry per failing check, each with its message |
| ContactForm.PostcodeFails | src/pages/ContactPage.jsx:67 | a failing postcode has one or two characters once trimmed, and one of three or more characters never fails; PostcodeRule gives the exact code-unit rule |
| ContactForm.Fails | src/pages/ContactPage.jsx:57-69 | the eight checks of `errors`; CanSubmitIff states them in full |
| ContactForm.ErrorMessage | src/pages/ContactPage.jsx:59-67 | the message of each check |
| ContactForm.CanSubmit | src/pages/ContactPage.jsx:71 | `canSubmit` is the absence of errors; CanSubmitIff characterises it |
| ContactForm.CanSubmitIff | src/pages/ContactPage.jsx:57-71 | `canSubmit` iff both selects are set; names, phone and message are not whitespace-only; the email is valid; the postcode is blank or its trimmed `length` (UTF-16 code units) is at least 3 |
| ContactForm.NoFailingCheck | src/pages/ContactPage.jsx:57-71 | no errors exactly when none of the eight checks fails |
| ContactForm.PostcodeRule | src/pages/ContactPage.jsx:66-67 | the postcode fails exactly when it is not whitespace-only and its trimmed `length`, in UTF-16 code units, is 1 or 2 |
| ContactForm.AstralPostcodeAccepted | src/pages/ContactPage.jsx:67 | an emoji followed by one letter has `length` 3, so it passes the postcode check |
| ContactForm.TwoLetterPostcodeFails | src/pages/ContactPage.jsx:67 | two plain letters fail the postcode check |
| ContactForm.DefaultFormFails | src/pages/ContactPage.jsx:21-69 | on the default form exactly the names, phone, email and message checks fail |
| ContactForm.DefaultFormErrors | src/pages/ContactPage.jsx:21-69 | the default form fails exactly the names, phone, email and message, so it cannot be sent |
| ContactForm.ContactPage.constructor | src/pages/ContactPage.jsx:21-34 | sales and company, empty text, nothing touched, no status |
| ContactForm.ContactPage.SetField | src/pages/ContactPage.jsx:36 | typing changes exactly one field |
| ContactForm.ContactPage.Blur | src/pages/ContactPage.jsx:238 | leaving a field marks it touched |
| ContactForm.ContactPage.Submit | src/pages/ContactPage.jsx:73-112 | an invalid form only gets all eight fields touched; a sent form returns to the defaults, untouched and thanked on success, and is kept with the failure message otherwise |
| ContactForm.ContactPage.Reset | src/pages/ContactPage.jsx:373-386 | from any state: the defaults, nothing touched, no status |
| Carousel.JsRem | src/components/HeroSection.jsx:62 | JavaScript's `%` takes the dividend's sign |
| Carousel.ClampIndex | src/components/HeroSection.jsx:62 | `clampIndex` always gives a slide that exists |
| Carousel.ClampIsMod | src/components/HeroSection.jsx:62 | `clampIndex(n)` is the least non-negative residue of n modulo the slide count, for every integer n |
| Carousel.ClampPeriodic | src/components/HeroSection.jsx:62 | `clampIndex(n + count) = clampIndex(n)` |
| Carousel.ShiftMod | src/components/HeroSection.jsx:62 | adding the slide count keeps the residue |
| Carousel.ClampInRange | src/components/HeroSection.jsx:62 | an index already in range is kept |
| Carousel.NextPrevSteps | src/components/HeroSection.jsx:73-74 | next and prev move by one, wrapping at the ends |
| Carousel.NextPrevInverse | src/components/HeroSection.jsx:73-74 | next then prev, and prev then next, restore the index |
| Carousel.AdvanceIsRotation | src/components/HeroSection.jsx:73 | k nexts from slide i land on (i + k) mod count |
| Carousel.StepMod | src/components/HeroSection.jsx:62 | stepping on from the residue of n, wrapping after the last slide, gives the residue of n + 1 |
| Carousel.NextIndex | src/components/HeroSection.jsx:73 | `next` always gives a slide: the one after, and the first after the last |
| Carousel.PrevIndex | src/components/HeroSection.jsx:74 | `prev` always gives a slide: the one before, and the last before the first |
| Carousel.FullRounds | src/components/HeroSection.jsx:73 | any multiple of count nexts, count itself included, returns to the start |
| Carousel.BarFractions | src/components/HeroSection.jsx:403-404 | the bar starts at index/count, within [0,1], one count-th long, full only on the last slide |
| Carousel.BarsAdjoin | src/components/HeroSection.jsx:403-404 | each slide's bar starts where the previous one ends, the first at the left edge |
| Carousel.DragDecision | src/components/HeroSection.jsx:101-111 | a drag moves the carousel exactly when it is finished and past 60 px or faster than 0.35; such a swipe goes next iff it is leftward, and prev iff it is not |
| Carousel.Hero.constructor | src/components/HeroSection.jsx:12-16 | the first slide, not hovered |
| Carousel.Hero.GoTo | src/components/HeroSection.jsx:64-71 | ref and state both take n mod count |
| Carousel.Hero.Next | src/components/HeroSection.jsx:73 | the next slide, wrapping |
| Carousel.Hero.Prev | src/components/HeroSection.jsx:74 | the previous slide, wrapping |
| Carousel.Hero.Tick | src/components/HeroSection.jsx:77-89 | the timer advances one slide unless hovered, and never runs under reduced motion |
| Carousel.Hero.OnKey | src/components/HeroSection.jsx:92-96 | ArrowRight goes next, ArrowLeft prev, other keys do nothing |
| Carousel.Hero.OnDrag | src/components/HeroSection.jsx:101-111 | the index moves as the drag decision says |
| Carousel.Hero.MouseEnter | src/components/HeroSection.jsx:119 | hovering starts |
| Carousel.Hero.MouseLeave | src/components/HeroSection.jsx:120 | hovering ends |
| Carousel.Hero.OnPreferenceChange | src/components/HeroSection.jsx:10 | the reduced-motion preference follows the system setting and the slide stays |
| Navbar.NextShow | src/components/Navbar.jsx:55-65 | within 8 px of the top the bar shows; a move of at most 8 px keeps it; a longer move hides it going down and shows it going up |
| Navbar.SlowScrollKeepsBar | src/components/Navbar.jsx:58-65 | a scroll moving at most 8 px per frame never hides a shown bar, however far it goes |
| Navbar.Bar.constructor | src/components/Navbar.jsx:32-48 | the bar shows, the drawer is closed, and the last position is the current scroll |
| Navbar.Bar.OnScroll | src/components/Navbar.jsx:50-54 | a scroll event asks for a frame unless one is pending |
| Navbar.Bar.OnFrame | src/components/Navbar.jsx:54-69 | the frame applies the visibility rule, records y and clears the pending flag; a hidden bar was hidden below the top zone |
| Navbar.Bar.OpenDrawer | src/components/Navbar.jsx:357 | the menu button opens the drawer |
| Navbar.Bar.CloseDrawer | src/components/Navbar.jsx:383 | the drawer's close actions close it |
| Navbar.Bar.HandleNav | src/components/Navbar.jsx:119-157 | following a link always closes the drawer, then does what the routing decision says |
| Navbar.ScrollTop | src/components/Navbar.jsx:145-146 | the scroll target is never negative and is the section's position less 86 px whenever that is not |
| Navbar.NavAction | src/components/Navbar.jsx:119-157 | a non-`#` link goes exactly there; off home a `#` link is stored and leads to "/" + link; on home it scrolls to the section, or sets the hash when there is none |
| Navbar.IsHome | src/components/Navbar.jsx:78-81 | the home page is "/", "" or "/index.html" |
| Navbar.IsHash | src/components/Navbar.jsx:122 | an in-page link starts with `#` |
| Navbar.PathOf | src/components/Navbar.jsx:137 | the path is the prefix of the URL up to its first `#`, all of it when there is none |
| Navbar.PendingHash | src/components/Navbar.jsx:77-90 | on the home page a stored hash wins over the URL's, and a hash is acted on only if it starts with `#` |
| Navbar.PendingRoundTrip | src/components/Navbar.jsx:135-139 | a `#` link followed off home lands on the home page and is the hash scrolled to there |
| PinnedPanels.ClampPanel | src/components/WhyGrflexSection.jsx:188 | any integer becomes the nearest existing panel |
| PinnedPanels.ProgressIndex | src/components/WhyGrflexSection.jsx:209-211 | never past the last panel, never before the first for non-negative progress, and below the last panel k exactly when progress·3 lies in [k, k+1), and the last panel only when progress·3 is at least 2 |
| PinnedPanels.ProgressIndexRange | src/components/WhyGrflexSection.jsx:209-212 | for progress in [0,1] the index is a panel, the first at 0 and the last at 1 |
| PinnedPanels.ProgressIndexMonotone | src/components/WhyGrflexSection.jsx:210-211 | more progress never gives an earlier panel |
| PinnedPanels.EqualShares | src/components/WhyGrflexSection.jsx:209-212 | panel k holds for progress in [k/3, (k+1)/3), the last also at 1 |
| PinnedPanels.Round | src/components/WhyGrflexSection.jsx:197 | `Math.round` is within half of its argument |
| PinnedPanels.ScrollPerPanel | src/components/WhyGrflexSection.jsx:197 | a panel's scroll is at least 260 px and otherwise 45% of the window height, rounded |
| PinnedPanels.TotalScroll | src/components/WhyGrflexSection.jsx:198 | the pinned stretch splits into an equal share per panel, each a panel's scroll, and is at least 780 px |
| PinnedPanels.PanelForScroll | src/components/WhyGrflexSection.jsx:197-212 | `d` pixels into the stretch show panel ⌊d / scroll per panel⌋, the last also at the very end |
| PinnedPanels.Section.constructor | src/components/WhyGrflexSection.jsx:10-27 | the first panel, with the preference false until the query answers |
| PinnedPanels.Section.OnPreferenceChange | src/components/WhyGrflexSection.jsx:9-19 | the preference follows the media query, and the panel stays where it was |
| PinnedPanels.Section.SetIdx | src/components/WhyGrflexSection.jsx:187-192 | the clamped index is stored; nothing changes when it equals the current one |
| PinnedPanels.Section.OnUpdate | src/components/WhyGrflexSection.jsx:180-213 | an update shows the panel for its progress; under reduced motion no trigger exists and the panel stays where it was |

## Left out

- The haversine distance is the abstract `DistanceKm`. Only the 0.621371 mile factor is kept.
- `Number(...)` parsing is the abstract `Parser`.
- The `toFixed(1)` distance text and the `encodeURIComponent` of the directions link are not modelled: they only format what is displayed or linked.
- Exact double arithmetic. Sums and products are exact reals, so rounding at the last bit of a double is not modelled.
- The network and the browser, each of which becomes a parameter or a split point:
  - the geocoder `fetch`;
  - `navigator.geolocation`;
  - the placeholder send timers;
  - `sessionStorage` (the stored hash is a parameter and its removal is implied by a chosen hash);
  - `window.location` and `scrollTo` (the routing decision is returned as a value).
- The interleaving of concurrent searches and the `searching` flag's effect on the disabled buttons. Each handler step is modelled on its own.
- The automatic search on mount is not a separate member. It is one `SearchStart`/`SearchDone` with the initial query.
- `sending` is not a field of either form class. It only disables the submit button while the send is awaited.
- `toLowerCase` is modelled on ASCII letters only. Unicode case mapping is not modelled.
- The animation-frame retry loops are not modelled:
  - after a hash scroll on arrival (up to 8 or 60 frames);
  - the second scroll after `handleNav`.
  `ScrollTop` models the one target they all compute.
- Rendering, styles and animation: framer-motion, GSAP pinning, the observers, the pinned top bar of the supplier page, and the height matching on the contact page.
- The narrow-screen layout of the "Why GRFlex" section. It renders the panels stacked and has no index.
- The immersive application section, the other presentation sections, the home, discover and app shells, and the footer's redirects.
- Carousel.ClampIndex: modelled with the slide count fixed at 4, the length of the slide list, rather than for any count.
- PinnedPanels.ProgressIndex: modelled with the panel count fixed at 3, the length of the panel list.
- PinnedPanels.Section: the scroll trigger's life is not a field of its own. It exists exactly while the preference is off, so `OnUpdate` does nothing and `SetIdx` cannot be called while reduced motion is on. A preference turned on mid-session leaves the panel where it was, as the source does.
