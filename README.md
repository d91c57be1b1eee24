# ReMediUse marketplace core in Dafny

ReMediUse is a web marketplace where people buy, sell and donate unused
medicines. This project models the deterministic logic inside its pages and
proves properties about it. The logic covers:

- the seed catalog of six listings (`MedicineData`);
- the prices and expiry badges a catalog card derives (`MedicineCard`);
- the catalog page (`BuyMedicines`): filter state, the filter-and-sort query, the checkbox, reset and badge handlers;
- the detail page (`MedicineDetail`): lookup by route id, loading flag, its own price and expiry helpers, and the similar-listings strip;
- the mock session store (`AuthContext`): rehydrate from browser storage, login, logout, `isAuthenticated`, `useAuth`;
- the sell and donate forms (`SellMedicine`, `DonateMedicine`, sharing `FormSubmission`): the schema as a validity predicate, the submit guards and the submitting flag.

The modelling choices:

- Dates are integer millisecond timestamps. The seed dates are UTC midnight of the listed day.
- Prices and percentages are exact reals.
- The current time (`today`) is a parameter.
- Browser storage is a `map<string, string>`.
- Serialising and parsing the stored user are functions given to the provider.
- The email check of the schema library is a predicate given to the sell form.
- Whether a storage write or removal throws is a boolean parameter of the operation.
- Generic helpers live in `Seqs`: `Array.filter` as `Filter`, its subsequence and membership laws, and `Reverse`.
- The string search (`toLowerCase`, `includes`) and the JavaScript `length` the form schemas test, in UTF-16 code units, live in `Text`.

Stateful parts are classes whose methods are tied to pure transition functions:

- `BuyMedicines.FilterPanel` is tied to `Apply`.
- `AuthContext.AuthProvider` is tied to `Rehydrated`, `AfterLogin` and `AfterLogout`.
- `MedicineDetail.DetailPage`, `SellMedicine.SellPage` and `DonateMedicine.DonatePage` are the other page classes.

The filter effect is the method `BuyMedicines.Query`. It filters stage by stage and then sorts a fresh array in place with an insertion sort, proved sorted and a permutation. The catalog is a value, so the query cannot change it.

In these places the code's behaviour is easy to misread; the model follows the code:

- Login assigns the mock user before the storage write, so a write that throws still leaves the user signed in. Only the toast reports the failure.
- Quantity and price are checked only as non-empty text, not as positive numbers.
- A stored empty text is falsy. It is treated as "nothing stored" and is not removed.
- When the detail page's id is not found, the previously shown listing stays in state. It is not reset.

## Model

| member | source | states |
|---|---|---|
| MedicineData.CatalogIds | src/data/medicineData.ts:22-136 | the catalog has six listings with ids med-001 to med-006 in order, pairwise distinct |
| MedicineData.CatalogPricesWellFormed | src/data/medicineData.ts:27-123 | every seed price is positive and every discount lies in [0, 100] (the price and discount lines of the six records) |
| MedicineData.CatalogPrescriptions | src/data/medicineData.ts:40-135 | exactly positions 1 and 2 (med-002, med-003) require a prescription (the prescription lines of the six records) |
| MedicineCard.DiscountedPrice | src/components/MedicineCard.tsx:42 | the price is `price·(1 − d/100)`, equals `price` when d = 0, and lies in [0, price] for a non-negative price and 0 ≤ d ≤ 100 |
| MedicineCard.DaysUntilExpiry | src/components/MedicineCard.tsx:30-32 | the day count is the ceiling of the time left in days: it covers the time left, and one day fewer does not |
| MedicineCard.DaysUntilExpiryIsLeast | src/components/MedicineCard.tsx:32 | any whole number of days covering the time left is at least the count |
| MedicineCard.DaysMonotone | src/components/MedicineCard.tsx:32 | a later expiry never gives fewer days |
| MedicineCard.StatusOf | src/components/MedicineCard.tsx:35-39 | red iff days ≤ 30, yellow iff 30 < days ≤ 90, green iff days > 90 |
| MedicineCard.StatusMonotone | src/components/MedicineCard.tsx:35-39 | more days never give a more urgent bucket |
| MedicineCard.LaterExpiryNeverMoreUrgent | src/components/MedicineCard.tsx:30-39 | a later expiry date never gives a more urgent bucket |
| MedicineCard.LabelOf | src/components/MedicineCard.tsx:88-90 | the label is "Expired" iff days ≤ 0, else "Expires in N days" with N the count |
| MedicineCard.ExpiredIsUrgent | src/components/MedicineCard.tsx:36 | an expired listing is always in the red bucket |
| MedicineCard.Card | src/components/MedicineCard.tsx:30-90 | the card's badge reads "Expired" iff the expiry time is not after now, "Expired" is red, and the list price is struck through iff the discount is positive |
| Text.ToLower | src/pages/BuyMedicines.tsx:45-46 | same length, each character lowered, no upper-case ASCII letter left |
| Text.ToLowerIdempotent | src/pages/BuyMedicines.tsx:45-46 | lower-casing twice equals lower-casing once |
| Text.IncludesIffOccurs | src/pages/BuyMedicines.tsx:45-46 | the substring scan succeeds iff the needle occurs at some position |
| Text.Utf16Length | src/pages/SellMedicine.tsx:19-27 | the UTF-16 length lies between the character count and twice it, and is 0 only for the empty text |
| Text.Utf16LengthOfBmp | src/pages/SellMedicine.tsx:19-27 | the UTF-16 length equals the character count iff no character lies outside the Basic Multilingual Plane |
| Text.TwoPillsAreFourUnits | src/pages/SellMedicine.tsx:19 | two pill emoji are two characters and four UTF-16 code units |
| BuyMedicines.ModeOf | src/pages/BuyMedicines.tsx:71-95 | each of the four named keys selects its order, and every other string selects relevance |
| BuyMedicines.SearchMeans | src/pages/BuyMedicines.tsx:43-49 | the search passes iff the term is empty or the lowered term occurs at some position of the lowered name or the lowered brand |
| BuyMedicines.MatchesMeans | src/pages/BuyMedicines.tsx:43-68 | a listing passes iff the search passes, the category is the chosen one or the sentinel is chosen, the discounted price lies in the range, "prescription only" forces a prescription and, when it is off, "no prescription only" forbids one |
| BuyMedicines.Selected | src/pages/BuyMedicines.tsx:39-68 | no longer than the catalog, and a listing is in it iff it is in the catalog and passes every filter |
| BuyMedicines.SelectedMembers | src/pages/BuyMedicines.tsx:43-68 | the selection holds exactly the catalog listings that pass all four predicates, in catalog order |
| BuyMedicines.StagesSelect | src/pages/BuyMedicines.tsx:43-68 | the four filters applied one after the other equal the single combined filter |
| BuyMedicines.ApplyFilters | src/pages/BuyMedicines.tsx:40-68 | the staged filtering, with each stage skipped at its neutral value, yields the selection |
| BuyMedicines.InsertAt | src/pages/BuyMedicines.tsx:71-91 | one insertion step: the prefix through the position becomes sorted, later elements stay, and the array is a permutation of what it held |
| BuyMedicines.SortInPlace | src/pages/BuyMedicines.tsx:71-91 | the array ends sorted by the mode's key and is a permutation of what it held |
| BuyMedicines.SortedMeans | src/pages/BuyMedicines.tsx:72-91 | sorted by key means non-decreasing price, non-increasing price, non-decreasing expiry or non-increasing listing time |
| BuyMedicines.Query | src/pages/BuyMedicines.tsx:39-98 | sound and complete for the four predicates, a permutation of the selection, unchanged catalog order under relevance or an unknown key, and the four sort orders |
| BuyMedicines.SortModesOfPage | src/pages/BuyMedicines.tsx:71-93 | the page's five sort values map to the five orders |
| BuyMedicines.InvertedRangeSelectsNothing | src/pages/BuyMedicines.tsx:56-61 | a price range with lo > hi selects nothing |
| BuyMedicines.PrescriptionOnlyWins | src/pages/BuyMedicines.tsx:64-68 | with both flags set, "prescription only" decides |
| BuyMedicines.CatalogCategoriesListed | src/pages/BuyMedicines.tsx:17-25 | every seed category is a non-sentinel entry of the category list |
| BuyMedicines.SeedPricesInDefaultRange | src/data/medicineData.ts:22-137 | every seed discounted price lies in [0, 20] |
| BuyMedicines.HasActiveFilters | src/pages/BuyMedicines.tsx:400-405 | when no badge shows, every listing whose discounted price lies in [0, 20] passes every filter; the initial state, under any sort, shows none |
| BuyMedicines.InactiveFiltersKeepCatalog | src/pages/BuyMedicines.tsx:400-405 | when no badge condition holds, the selection is the whole catalog in order |
| BuyMedicines.DefaultFiltersKeepCatalog | src/pages/BuyMedicines.tsx:29-35 | the initial state shows no badges, sorts by relevance and selects the whole catalog |
| BuyMedicines.PainReliefSelectsParacetamol | src/data/medicineData.ts:23-31 | choosing "Pain Relief" selects only med-001, whose discounted price is 6.7425 |
| BuyMedicines.CheckboxesExclude | src/pages/BuyMedicines.tsx:217-233 | ticking one prescription box sets it and clears the other; the two are never both set afterwards |
| BuyMedicines.ApplyKeepsExclusive | src/pages/BuyMedicines.tsx:217-233 | every handler keeps the two prescription flags exclusive |
| BuyMedicines.NeverBothPrescriptionFlags | src/pages/BuyMedicines.tsx:328-343 | from an exclusive state, no series of events sets both flags |
| BuyMedicines.ResetRestoresInitial | src/pages/BuyMedicines.tsx:101-108 | reset yields exactly the initial state, which shows no badges |
| BuyMedicines.PriceOrdersReverse | src/pages/BuyMedicines.tsx:72-85 | with distinct prices, the "price-high" order is exactly the reverse of the "price-low" order |
| BuyMedicines.SelectionIgnoresSort | src/pages/BuyMedicines.tsx:43-68 | the sort key does not affect which listings are selected |
| BuyMedicines.AscendingThenDescending | src/pages/BuyMedicines.tsx:71-85 | querying "price-low" then "price-high" gives reversed lists of the same listings, when the selected discounted prices are distinct |
| BuyMedicines.Apply | src/pages/BuyMedicines.tsx:101-446 | over the handlers (reset at 101-108, inputs at 145, 182, 199, 217-233 and 255, badge closers at 410-446), no handler sets both prescription flags when they were not both set, and reset yields the initial state |
| BuyMedicines.FilterPanel.constructor | src/pages/BuyMedicines.tsx:28-35 | the panel mounts with the initial filter state, flags exclusive, listing the whole catalog |
| BuyMedicines.FilterPanel.Handle | src/pages/BuyMedicines.tsx:101-446 | each handler (reset at 101-108, inputs at 145, 182, 199, 217-233 and 255, badge closers at 410-446) moves the filter state as `Apply` does, keeps the flags exclusive and leaves the listed medicines alone |
| BuyMedicines.FilterPanel.Refresh | src/pages/BuyMedicines.tsx:39-98 | the listed medicines become a permutation of the selection, and in catalog order under relevance |
| MedicineDetail.FindById | src/pages/MedicineDetail.tsx:23 | none found iff no listing has the id; a found listing is in the catalog and has the id |
| MedicineDetail.FindByIdIsFirst | src/pages/MedicineDetail.tsx:23 | the lookup yields the first listing carrying the id |
| MedicineDetail.FindByDistinctId | src/pages/MedicineDetail.tsx:23 | with distinct ids, the lookup of a listing's id finds that listing |
| MedicineDetail.FindsSeedListing | src/pages/MedicineDetail.tsx:23-25 | the id med-003 finds the Lisinopril listing |
| MedicineDetail.UnknownIdFindsNothing | src/pages/MedicineDetail.tsx:23-25 | the id med-007, or a missing route parameter, finds nothing in the seed catalog |
| MedicineDetail.ViewOf | src/pages/MedicineDetail.tsx:63-93 | loading screen iff loading; "Medicine Not Found" iff not loading and no listing; otherwise the listing's details |
| MedicineDetail.CalculateDaysUntilExpiry | src/pages/MedicineDetail.tsx:40-46 | 0 without a listing; otherwise the ceiling of the time left in days |
| MedicineDetail.DetailStatus | src/pages/MedicineDetail.tsx:51-55 | red iff days ≤ 30, green iff days > 90 |
| MedicineDetail.CalculateDiscountedPrice | src/pages/MedicineDetail.tsx:58-61 | 0 without a listing; otherwise `price·(1 − d/100)` |
| MedicineDetail.DetailAgreesWithCard | src/pages/MedicineDetail.tsx:40-61 | the page's day count, bucket, "Expired" label and price agree with the card's for the same listing and time |
| MedicineDetail.SimilarMedicines | src/pages/MedicineDetail.tsx:256-258 | at most four listings, each of the current category and with another id |
| MedicineDetail.SimilarKeepsOrder | src/pages/MedicineDetail.tsx:256-258 | the similar list is a subsequence of the catalog |
| MedicineDetail.SimilarIsFirstFour | src/pages/MedicineDetail.tsx:256-258 | a similar listing with fewer than four similar listings before it is shown |
| MedicineDetail.ShortSimilarListIsComplete | src/pages/MedicineDetail.tsx:256-258 | a list shorter than four holds every similar listing |
| MedicineDetail.SeedListingsHaveNoSimilar | src/pages/MedicineDetail.tsx:256-258 | each seed listing has a category of its own, so its strip is empty |
| MedicineDetail.DetailPage.constructor | src/pages/MedicineDetail.tsx:15-16 | no listing and loading, so the loading screen |
| MedicineDetail.DetailPage.FetchMedicine | src/pages/MedicineDetail.tsx:20-33 | loading is off afterwards; a found listing is shown, and an id not found keeps the previous one |
| AuthContext.InitialSession | src/context/AuthContext.tsx:23-24 | nobody signed in, loading, storage as the browser holds it |
| AuthContext.StoredText | src/context/AuthContext.tsx:28-29 | a stored text counts only when the key is present and the text non-empty |
| AuthContext.Rehydrated | src/context/AuthContext.tsx:27-38 | loading ends; a parsed text becomes the user; a malformed text is removed and the user stays; nothing stored changes nothing |
| AuthContext.AfterLogin | src/context/AuthContext.tsx:41-69 | the user is the mock user and loading ends whatever happens; a good write stores the serialisation under "remediuser" and welcomes "John Doe"; a failed write leaves storage as it was and reports the failure |
| AuthContext.AfterLogout | src/context/AuthContext.tsx:71-90 | nobody is signed in and loading ends; a good removal drops the entry; other keys stay |
| AuthContext.OtherKeysUntouched | src/context/AuthContext.tsx:27-90 | no operation changes a storage key other than "remediuser" |
| AuthContext.LoginThenLogoutClears | src/context/AuthContext.tsx:41-90 | login followed by a logout whose removal succeeds leaves nobody signed in and no stored entry |
| AuthContext.LogoutIdempotent | src/context/AuthContext.tsx:71-90 | two logouts whose removals succeed equal one |
| AuthContext.LoginIdempotent | src/context/AuthContext.tsx:41-69 | logging in twice equals logging in once |
| AuthContext.LoginSurvivesReload | src/context/AuthContext.tsx:27-54 | with a faithful serialiser, a reload after login signs the mock user in again |
| AuthContext.LogoutSurvivesReload | src/context/AuthContext.tsx:27-38 | a reload after logout finds nobody, whatever the parser does |
| AuthContext.MalformedIsDroppedForGood | src/context/AuthContext.tsx:30-35 | a malformed stored user is dropped, and the next reload finds nothing |
| AuthContext.IsAuthenticated | src/context/AuthContext.tsx:98 | signed in iff a user is set |
| AuthContext.ValueOf | src/context/AuthContext.tsx:93-99 | `isAuthenticated` holds iff a user is present |
| AuthContext.UseAuth | src/context/AuthContext.tsx:105-111 | outside a provider the result is the error "useAuth must be used within an AuthProvider"; inside, the provider's value |
| AuthContext.AuthProvider.constructor | src/context/AuthContext.tsx:23-24 | the provider mounts as `InitialSession` of the browser storage: nobody signed in, loading |
| AuthContext.AuthProvider.Rehydrate | src/context/AuthContext.tsx:27-38 | the new session is `Rehydrated` of the old one |
| AuthContext.AuthProvider.Login | src/context/AuthContext.tsx:41-69 | the new session and toast are `AfterLogin` of the old session |
| AuthContext.AuthProvider.Logout | src/context/AuthContext.tsx:71-90 | the new session and toast are `AfterLogout` of the old session |
| AuthContext.AuthProvider.Value | src/context/AuthContext.tsx:98 | `isAuthenticated` iff a user is present |
| FormSubmission.HasImage | src/pages/SellMedicine.tsx:61 | an image counts iff one is set and it is not empty text |
| FormSubmission.Reported | src/pages/SellMedicine.tsx:18-28 | at most one message per rule, and only messages of the rules |
| FormSubmission.ReportedIff | src/pages/SellMedicine.tsx:18-28 | with distinct messages, a rule's message is reported iff its check failed |
| FormSubmission.ReportedDistinct | src/pages/SellMedicine.tsx:18-28 | with distinct messages, no message is reported twice |
| FormSubmission.SubmitGuard | src/pages/SellMedicine.tsx:51-70 | disabled while submitting; otherwise an invalid form stops first, then a signed-out user, then a missing image; only when all pass does submitting start |
| FormSubmission.AuthCheckedBeforeImage | src/pages/SellMedicine.tsx:52-68 | a signed-out user is told to sign in whatever the image |
| SellMedicine.SellFormValid | src/pages/SellMedicine.tsx:18-28 | a valid form has every required field filled and a well-formed email; the minimum lengths count UTF-16 code units, as JavaScript `length` does |
| SellMedicine.SellMessagesDistinct | src/pages/SellMedicine.tsx:19-27 | the eight rule messages are pairwise different |
| SellMedicine.SellErrors | src/pages/SellMedicine.tsx:18-28 | each field's message is reported iff that field breaks its rule (in UTF-16 code units: name under 3, brand under 2, expiry, quantity or price empty, address under 5, phone under 10; or email ill-formed), and no message twice |
| SellMedicine.SellValidIffNoErrors | src/pages/SellMedicine.tsx:18-28 | the schema accepts the form iff no field reports its message |
| SellMedicine.DescriptionUnconstrained | src/pages/SellMedicine.tsx:24 | changing the description never changes validity |
| SellMedicine.SampleListingValid | src/pages/SellMedicine.tsx:18-28 | the sample listing of the scenario meets every rule |
| SellMedicine.TwoPillNamePasses | src/pages/SellMedicine.tsx:19 | a name of two pill emoji, two characters but four code units, passes the three-unit minimum |
| SellMedicine.QuantityAndPriceNotNumeric | src/pages/SellMedicine.tsx:22-23 | a form with quantity "many" and price "-3" is accepted |
| SellMedicine.DefaultEmail | src/pages/SellMedicine.tsx:46-48 | the signed-in user's email, or empty text without a user |
| SellMedicine.DefaultEmailAfterLogin | src/pages/SellMedicine.tsx:46-48 | after a login the email field starts as john.doe@example.com |
| SellMedicine.SellSubmit | src/pages/SellMedicine.tsx:51-70 | submitting starts iff not already submitting, the form is valid, the user is signed in and an image is present |
| SellMedicine.DocumentNeverBlocks | src/pages/SellMedicine.tsx:37 | the verification document never changes the submit outcome |
| SellMedicine.SignedOutSellerMustSignIn | src/pages/SellMedicine.tsx:52-68 | a signed-out seller with a valid form is told to sign in, with or without an image |
| SellMedicine.SellPage.constructor | src/pages/SellMedicine.tsx:36-38 | no image, no document, not submitting |
| SellMedicine.SellPage.Submit | src/pages/SellMedicine.tsx:51-70 | the outcome is `SellSubmit` of the page state, and the flag rises exactly when submitting starts |
| SellMedicine.SellPage.CompleteSubmission | src/pages/SellMedicine.tsx:73-80 | the flag falls and the page goes to /profile |
| SellMedicine.SellPage.ImageLoaded | src/pages/SellMedicine.tsx:83-92 | the uploaded data URL becomes the image |
| SellMedicine.SellPage.RemoveImage | src/pages/SellMedicine.tsx:217 | the image is cleared |
| SellMedicine.SellPage.DocumentLoaded | src/pages/SellMedicine.tsx:94-103 | the uploaded data URL becomes the document |
| SellMedicine.SellPage.RemoveDocument | src/pages/SellMedicine.tsx:268 | the document is cleared |
| DonateMedicine.DonateFormValid | src/pages/DonateMedicine.tsx:19-26 | a valid form has every required text filled and a non-empty NGO chosen; the minimum lengths count UTF-16 code units |
| DonateMedicine.DonateMessagesDistinct | src/pages/DonateMedicine.tsx:20-25 | the five rule messages are pairwise different, and the NGO message is "Required" iff no NGO is set |
| DonateMedicine.DonateErrors | src/pages/DonateMedicine.tsx:19-26 | each field's message is reported iff that field breaks its rule, lengths in UTF-16 code units; "Required" iff no NGO is set, "Please select an NGO" iff the NGO is empty text; no message twice, at most five |
| DonateMedicine.DonateValidIffNoErrors | src/pages/DonateMedicine.tsx:19-26 | the schema accepts the form iff no field reports its message |
| DonateMedicine.HandleNgoChange | src/pages/DonateMedicine.tsx:89-91 | the picked value becomes the NGO and nothing else changes |
| DonateMedicine.UnsetNgoInvalid | src/pages/DonateMedicine.tsx:25 | an unset NGO makes the form invalid, with the message "Required" |
| DonateMedicine.PickingAnOptionSatisfiesNgoRule | src/pages/DonateMedicine.tsx:235-239 | after picking any of the five entries, the form is valid iff the typed fields are |
| DonateMedicine.DonateDescriptionUnconstrained | src/pages/DonateMedicine.tsx:24 | changing the description never changes validity |
| DonateMedicine.DonateSubmit | src/pages/DonateMedicine.tsx:46-65 | submitting starts iff not already submitting, the form is valid, the user is signed in and an image is present |
| DonateMedicine.SignedOutDonorMustSignIn | src/pages/DonateMedicine.tsx:47-63 | a signed-out donor with a valid form is told to sign in, with or without an image |
| DonateMedicine.DonatePage.constructor | src/pages/DonateMedicine.tsx:34-44 | blank form values with no NGO, no image, not submitting |
| DonateMedicine.DonatePage.EnterDetails | src/pages/DonateMedicine.tsx:123-176 | the typed fields take the entered values and the picked NGO is kept |
| DonateMedicine.DonatePage.ImageLoaded | src/pages/DonateMedicine.tsx:78-87 | the uploaded data URL becomes the image |
| DonateMedicine.DonatePage.RemoveImage | src/pages/DonateMedicine.tsx:193 | the image is cleared |
| DonateMedicine.DonatePage.PickNgo | src/pages/DonateMedicine.tsx:89-91 | the form values become `HandleNgoChange` of the old ones |
| DonateMedicine.DonatePage.Submit | src/pages/DonateMedicine.tsx:46-65 | the outcome is `DonateSubmit` of the page state, and the flag rises exactly when submitting starts |
| DonateMedicine.DonatePage.CompleteSubmission | src/pages/DonateMedicine.tsx:68-75 | the flag falls and the page goes to /profile |

## Left out

- Rendering, CSS classes, icons and the mobile filter-panel toggle (`isFilterOpen`) are presentation only. A toast is modelled as the outcome it reports.
- Landing and chrome components, the user profile page and routing are not part of this model. They are static markup, or a copy of the discount formula inside markup, or path matching done by the router library.
- BuyMedicines.SortInPlace: does not state that the sort is stable. `Array.prototype.sort` is stable, but the model proves only sortedness and permutation.
- BuyMedicines.FilterPanel.Refresh: states the permutation and the relevance order, but not the sort orders. Those are stated on `BuyMedicines.Query`, which it calls.
- The page runs the filter effect after every change of a filter field. The model makes this an explicit `Refresh` call.
- Text.ToLower: maps only the ASCII letters. `toLowerCase` applies full Unicode case mapping.
- Date parsing, `toLocaleDateString`, `toFixed(2)` and IEEE-754 floating-point rounding are abstracted away. Dates are integer timestamps and prices are exact reals.
- `JSON.stringify` and `JSON.parse` are functions given to the provider. A stored text that parses to a JSON value other than a user or `null` is not modelled.
- `localStorage` is a map. A `getItem` that throws is not modelled, and neither is a `removeItem` that throws during rehydration.
- The email check of the schema library is a predicate given to the sell form.
- `FileReader`, `setTimeout`, `document.title` and `window.scrollTo` are left out. An upload is the data URL it yields. The simulated two-second upload is the separate `CompleteSubmission` step, and nothing models what happens in between.
- The hooks' re-render ordering and batching are not modelled. Each handler's setters run in sequence on the fields.
- The form library's own wiring (register, resolver, error display) is reduced to the validity predicate and the error list.
- DonateMedicine.DonatePage.EnterDetails: the typed inputs are set all at once, not keystroke by keystroke.
- SellMedicine.SellPage.ImageLoaded: unreachable from the page as written. The page's `document` state (src/pages/SellMedicine.tsx:37) shadows the browser's `document`, so the "Upload Image" and "Upload Document" buttons (src/pages/SellMedicine.tsx:235-240, 286-291) call `getElementById` on `null` and throw. No image or document is ever attached there, and a sell submit with a valid form and a signed-in user always stops at the image check. The model keeps the handlers the file input would run; the donate page's button (src/pages/DonateMedicine.tsx:211) uses the real `document` and is unaffected.
- SellMedicine.SellPage.DocumentLoaded: unreachable from the page as written, for the same reason.
- SellMedicine.ListingScenario: describes the listing the handlers allow once an image is attached, which the page as written never reaches.
- The router (src/App.tsx:25-26) sends /sell and /donate to the not-found page, and src/App.tsx mounts no `AuthProvider`. The sell and donate pages, and the session store they read, are modelled as components in their own right.
