# Diamond-processing client: a Dafny model of its rules

The client is a Next.js front end through which a diamond workshop tracks rough
stones across stages: rough-diamond entry, galaxy scanning, planning, actipart,
polishing and shine, followed by a final-diamond record. It also has an
inventory dashboard, a contact book of traders (vepari) and brokers (dalal),
and a login with a session kept in `localStorage`. Almost everything the
screens do is exchange data with a REST server. This project models the rules
the client applies itself and proves what those rules guarantee.

The server is an input. Each request's outcome is passed to the operation that
makes it: success with a payload, or failure with a message. Other things the
model takes as parameters:

- "today", as ISO text;
- the authentication token;
- JavaScript number parsing and printing;
- `encodeURIComponent`/`decodeURIComponent`;
- `JSON.stringify`/`JSON.parse`.

These are collected in module `Foreign` as values. The laws the proofs rely on
are stated as predicates, and only the lemmas that need them require them. The
laws are:

- decoding undoes encoding;
- encoded text has no `;`, `=` or white space;
- parsing undoes stringifying;
- `Number("")` is 0 and `parseFloat("")` is `NaN`.

Modules, one per source file of the core:

- `Common`: library idioms the screens share. These are filter, find, distinct values (`Array.from(new Set(...))`), `trim`, `toLowerCase`, `includes`, `split`/`join`, and the message-or-fallback idiom.
- `IsoDates`: `YYYY-MM-DD` dates compared as strings. For well-formed dates, string order is chronological order.
- `GalaxyScanning` (`components/forms/Galaxyscaningform.tsx`): a class that holds the session's own list of handled packets. Assign appends to it, submit rewrites it, and it yields both dropdowns.
- `Actipart` (`components/forms/ActipartForm.tsx`): the eligible packets as an ordered intersection, the status mapping, ordered assign/submit checks, and auto-fill.
- `Polishing` (`components/forms/ProcessingForm.tsx`): the assigned-status filter, fill-or-blank auto-fill, and resets plus reloads after each action.
- `Planning` (`components/forms/Planningform.tsx`): submitted galaxy packets, required-field checks, the submit-form prefill, the status badge and the falsy-number rule.
- `Shine` (`components/forms/ShineForm.tsx`): the not-submitted list that feeds both dropdowns, auto-fill, and reset only on `success`.
- `Dashboard` (`app/dashboard/page.tsx`): the weight histogram, the pending count, the quality tally, the inventory search, pages and page clamping, the transaction filter, and the remaining-weight total.
- `FormState` (`context/FormContext.tsx`): the wizard's field store. Error display is gated on the touched set.
- `Tabs` (`components/TabSection.tsx`): the set of completed tabs.
- `DiamondDetails` (`components/forms/DiamondDetailsForm.tsx`): the rough-diamond validator, checked error by error, plus contact auto-fill and payload defaults.
- `FinalDiamond` (`components/forms/FinalDiamondform.tsx`): office and rough-name dropdowns, clearing the rough name, and the weight total.
- `Contacts` (`components/forms/TransactionForm.tsx`): the two contact lists, with add, edit and delete.
- `Login` (`app/login/page.tsx`): the e-mail pattern, login and signup validation, and role derivation.
- `Auth` (`context/auth-context.tsx`): the session provider over a `localStorage` class, with the login-then-reload round trip.
- `RouteGuard` (`components/ProtectedRoute.tsx`): the redirect-or-render decision.
- `Cookies` (`lib/cookies.ts`): building a Set-Cookie line (section 4.1.1 of RFC 6265) and reading a Cookie header (section 4.2.1 of RFC 6265). Includes the auth-cookie helpers and the write-then-read round trip.
- `PlanningDetails` (`components/pages/PlaningDetails.tsx`): the status colour map, the status label, and the "-" placeholders.

Screens whose fields change step by step are classes. Their handlers are
methods that state the whole new state. Derived lists, checks and formatting
are functions with named results. Lemmas state the properties that hold
across calls: round trips, idempotence, exactness, counts and ordering.

## Model

| member | source | states |
|---|---|---|
| Common.Filter | components/forms/ShineForm.tsx:69-71 | `filter` keeps exactly the elements the test accepts, never more than there were |
| Common.FilterAppend | components/forms/ShineForm.tsx:69-71 | filtering a concatenation is concatenating the filtered parts, so order is kept |
| Common.FilterKeepsAll | app/dashboard/page.tsx:88-89 | a test every element passes keeps the whole list in order |
| Common.FilterSame | app/dashboard/page.tsx:88-95 | two tests that agree on every element filter alike |
| Common.FilterKeepsOrder | components/forms/ActipartForm.tsx:166-168 | two kept elements stay in their relative order |
| Common.Find | components/forms/ShineForm.tsx:192 | `find` gives nothing iff no element passes, otherwise the first element that passes |
| Common.Distinct | components/forms/FinalDiamondform.tsx:56 | `Array.from(new Set(...))` keeps every value, each once |
| Common.DistinctPrefix | components/forms/FinalDiamondform.tsx:56 | de-duplicating a prefix gives a prefix of the de-duplicated list |
| Common.DistinctKeepsFirstOrder | components/forms/FinalDiamondform.tsx:56 | values come out in order of first occurrence |
| Common.DistinctOfDistinct | components/forms/FinalDiamondform.tsx:56 | a list without repeats is left as it is |
| Common.TrimStartCut | components/forms/TransactionForm.tsx:199-200 | the start trim keeps the text from a cut point before which everything is white space and at which the character is not |
| Common.TrimStartShape | components/forms/TransactionForm.tsx:199-200 | the start trim drops a prefix made only of white space and stops at the first other character |
| Common.TrimEndCut | components/forms/TransactionForm.tsx:199-200 | the end trim keeps the text up to a cut point after which everything is white space and before which the character is not |
| Common.TrimEndShape | components/forms/TransactionForm.tsx:199-200 | the end trim drops a suffix made only of white space and stops at the last other character |
| Common.TrimStartBlank | components/forms/TransactionForm.tsx:199-202 | the start trim is empty iff the text is all white space |
| Common.TrimEndBlank | components/forms/TransactionForm.tsx:199-202 | the end trim is empty iff the text is all white space |
| Common.TrimEmptyIffBlank | components/forms/ShineForm.tsx:181 | `!s.trim()` holds exactly for text that is all white space |
| Common.TrimEnds | components/forms/TransactionForm.tsx:199-200 | a non-empty trimmed text has white space at neither end |
| Common.TrimUntrimmed | lib/cookies.ts:57 | text without white space at its ends trims to itself |
| Common.MessageOr | components/forms/ShineForm.tsx:110 | the message-or-fallback idiom is the message when it is non-empty, the fallback otherwise |
| Common.Lower | app/dashboard/page.tsx:89 | lower-casing, over ASCII letters, keeps the length and maps each character on its own |
| Common.ContainsAt | app/dashboard/page.tsx:89 | text found at some position is included |
| Common.ContainsAppend | lib/cookies.ts:21-43 | what a text includes, any extension of it includes too |
| Common.IndexOf | components/pages/PlaningDetails.tsx:120 | nothing iff the character is absent, otherwise the position of its first occurrence |
| Common.Split | lib/cookies.ts:54-57 | `split` gives at least one part, none holding the separator |
| Common.SplitJoin | lib/cookies.ts:54 | joining the parts with the separator gives back the text |
| Common.JoinCons | lib/cookies.ts:54 | joining a longer list puts the separator after the first part |
| Common.SplitHead | lib/cookies.ts:57 | the first part is exactly the text before the first separator |
| Common.SplitNoSeparator | lib/cookies.ts:57 | text without the separator splits into itself alone |
| IsoDates.Pow10 | components/forms/Galaxyscaningform.tsx:152 | every power of ten is at least 1 |
| IsoDates.PlaceBound | components/forms/Galaxyscaningform.tsx:163 | a digit in front of a smaller number stays below the next power of ten |
| IsoDates.Value | components/forms/Galaxyscaningform.tsx:163 | a digit string of length n denotes a number below 10^n |
| IsoDates.StringLessConcat | components/forms/Galaxyscaningform.tsx:163 | string order on equal-length prefixes is decided by the prefixes unless they are equal |
| IsoDates.PlaceOrder | components/forms/Galaxyscaningform.tsx:163 | a smaller leading digit outweighs any remainder |
| IsoDates.MulMono | components/forms/Galaxyscaningform.tsx:163 | multiplying keeps order |
| IsoDates.DigitsOrder | components/forms/Galaxyscaningform.tsx:163 | for equal-length digit strings, string order is numeric order and equal text is equal value |
| IsoDates.IsoOrderIsChronological | components/forms/Galaxyscaningform.tsx:152-166 | for two YYYY-MM-DD dates, the string comparison `date > today` is chronological order by year, month and day |
| GalaxyScanning.AssignCheck | components/forms/Galaxyscaningform.tsx:155-170 | the assign request goes out iff all four fields are filled, the weight does not parse to a number <= 0 (a NaN weight passes), the date is not after today as a string and a token is held; the missing-field error is reported exactly when one of the four is empty |
| GalaxyScanning.AcceptedAssignNotFuture | components/forms/Galaxyscaningform.tsx:152-166 | for well-formed ISO dates, an accepted assign date is never chronologically later than today |
| GalaxyScanning.SubmitCheck | components/forms/Galaxyscaningform.tsx:237-244 | the submit request goes out iff packet number and submit date are filled and a token is held; the missing-field error exactly when one of the two is empty |
| GalaxyScanning.Numbers | components/forms/Galaxyscaningform.tsx:123 | the set holds exactly the packet numbers that occur in the local list |
| GalaxyScanning.AvailableFrom | components/forms/Galaxyscaningform.tsx:118-128 | a nung packet is offered for assignment iff no local row, whatever its status, has its number |
| GalaxyScanning.ForSubmit | components/forms/Galaxyscaningform.tsx:297-299 | the submit dropdown holds exactly the local rows still `assigned` |
| GalaxyScanning.SubmitAll | components/forms/Galaxyscaningform.tsx:265-271 | same length; rows with another number are unchanged; rows with the submitted number become `submitted` with the submit date and keep all other details |
| GalaxyScanning.MarkSubmitted | components/forms/Galaxyscaningform.tsx:265-271 | one row of the `map`: number, weight, party and assign date are kept; a row with the submitted number becomes `submitted` with the date; any other row is unchanged |
| GalaxyScanning.SubmittedLeavesDropdown | components/forms/Galaxyscaningform.tsx:265-299 | after a submit no row with that number is offered for submission |
| GalaxyScanning.HandledNeverAvailable | components/forms/Galaxyscaningform.tsx:123-126 | a packet handled this session is never offered for assignment again, submitted or not |
| GalaxyScanning.GalaxyScanningForm.constructor | components/forms/Galaxyscaningform.tsx:45-75 | empty forms and lists; the stored token is kept and its absence reported |
| GalaxyScanning.GalaxyScanningForm.FetchAvailablePackets | components/forms/Galaxyscaningform.tsx:99-139 | without a token nothing is fetched; on success the dropdown becomes `AvailableFrom` of the reply; a failure is reported as "Failed to fetch available packets: " followed by its message, and the dropdown kept |
| GalaxyScanning.GalaxyScanningForm.HandleAssign | components/forms/Galaxyscaningform.tsx:150-230 | a refused check or a failed reply changes nothing but the notice, and a failed reply's message is shown after "Failed to assign galaxy scanning: "; success appends exactly one `assigned` row with the entered fields, clears the assign form, prefills the submit form with that packet and today and reloads the assign dropdown, since the local list changed; every row stays well formed |
| GalaxyScanning.GalaxyScanningForm.HandleSubmit | components/forms/Galaxyscaningform.tsx:233-294 | a refused check or failed reply changes nothing but the notice, and a failed reply's message is shown after "Failed to submit galaxy scanning: "; success applies `SubmitAll` with the form's number and date, clears the submit form and reloads the assign dropdown, since the local list was rebuilt |
| GalaxyScanning.GalaxyScanningForm.SelectForSubmit | components/forms/Galaxyscaningform.tsx:404-415 | the first local row with the chosen number fills the submit form with today's date; an unknown number leaves the form as it was |
| GalaxyScanning.GalaxyScanningForm.AssignedPacketsForSubmit | components/forms/Galaxyscaningform.tsx:297-299 | exactly the rows of the current list still `assigned`, no more rows than the list |
| GalaxyScanning.GalaxyScanningForm.EditAssign | components/forms/Galaxyscaningform.tsx:362-385 | an input change replaces the assign form |
| GalaxyScanning.GalaxyScanningForm.EditSubmit | components/forms/Galaxyscaningform.tsx:451-453 | an input change replaces the submit form |
| Actipart.PlanningNumbers | components/forms/ActipartForm.tsx:158-160 | one packet number per planning entry, in order |
| Actipart.EligibleOption | components/forms/ActipartForm.tsx:172-178 | the option for a packet takes kapan, planner and weight from the first planning entry for it, and '', '' and 0 when there is none; the karigar is always '' |
| Actipart.CommonPackets | components/forms/ActipartForm.tsx:158-169 | a number is listed iff some planning entry has it and the lssoing list has it; no number twice |
| Actipart.InList | components/forms/ActipartForm.tsx:167 | the test holds exactly for the numbers of the lssoing list |
| Actipart.CommonPacketsFirstOrder | components/forms/ActipartForm.tsx:158-169 | of two common packets, the one whose first planning entry comes first is listed first |
| Actipart.FilterKeepsDistinct | components/forms/ActipartForm.tsx:167-169 | filtering a list without repeats keeps it without repeats |
| Actipart.Eligible | components/forms/ActipartForm.tsx:124-180 | a packet is offered iff it is in both lists; no packet twice; every option is built from the first planning entry for its packet; the options follow the common packets one for one |
| Actipart.EligibleFirstOrder | components/forms/ActipartForm.tsx:158-177 | the dropdown offers the eligible packets in planning order |
| Actipart.KapanOptions | components/forms/ActipartForm.tsx:571 | the kapan dropdown holds exactly the kapan numbers of the eligible list, each once |
| Actipart.KapanColumn | components/forms/ActipartForm.tsx:571 | one kapan number per eligible option, in order |
| Actipart.KapanOptionsFirstOrder | components/forms/ActipartForm.tsx:571 | kapan numbers are offered in the order of their first appearance |
| Common.StageStatus | components/forms/ActipartForm.tsx:223 | "submitted" reads "Submitted" and every other status "Assigned"; the shine table applies the same rule (components/forms/ShineForm.tsx line 162) |
| Actipart.AssignedFromEntries | components/forms/ActipartForm.tsx:103-114 | an option is offered for submission iff it comes from a table row whose status is "Assigned"; the options are those rows one for one, in table order and with repeats kept |
| Actipart.SubmitDropdownIsUnsubmitted | components/forms/ActipartForm.tsx:103-223 | a server row is offered for submission exactly when its server status is not "submitted" |
| Actipart.AssignCheck | components/forms/ActipartForm.tsx:325-341 | the request goes out iff packet, kapan, weight and date are filled, the weight does not parse to a number <= 0, the date is not after today and a karigar or a party is named; the checks block in that order |
| Actipart.OrNull | components/forms/ActipartForm.tsx:361-362 | an empty name is sent as null, any other as itself |
| Actipart.AcceptedAssignNamesWorker | components/forms/ActipartForm.tsx:337-362 | every assign request that is sent names a karigar or a party |
| Actipart.SubmitCheck | components/forms/ActipartForm.tsx:410-428 | the missing-field error exactly when packet or date is empty; an accepted submit has both and a date not after today |
| Actipart.BeforeAssignCheckIsDead | components/forms/ActipartForm.tsx:416-424 | against the lookup list declared at line 99 without a setter, and so never filled, the before-assign refusal cannot happen, and a submit passes iff packet and date are filled and the date is not after today |
| Actipart.NormalizeDate | components/forms/ActipartForm.tsx:224-225 | a falsy date stays empty; any other date becomes its normalised day, or fails |
| Actipart.MapEntry | components/forms/ActipartForm.tsx:214-226 | a row keeps its fields, gets its status mapped and its dates normalised (a falsy submission date reads as null), and fails exactly when one of its dates fails |
| Actipart.MapEntries | components/forms/ActipartForm.tsx:214-226 | the mapped table has one row per server row, in order, and fails exactly when some row fails |
| Actipart.MapEntriesOfDays | components/forms/ActipartForm.tsx:223-225 | a table whose dates are already days never fails, and only the status changes |
| Actipart.ActipartScreen.constructor | components/forms/ActipartForm.tsx:75-100 | empty forms dated today, empty lists, and an empty lookup that has no setter |
| Actipart.ActipartScreen.FetchAvailableNungKapanForAssign | components/forms/ActipartForm.tsx:124-189 | without a token or on a failed reply the list is kept; a missing token is reported as such, a failure as the packet-data prefix followed by the planning reply's message, or else the lssoing reply's; otherwise the list becomes `Eligible` of the two replies |
| Actipart.ActipartScreen.FetchShineData | components/forms/ActipartForm.tsx:192-238 | without a token or on failure the table is kept; a date that does not parse throws inside the mapping, so the table is kept and "Invalid time value" shown after the entries prefix, like a failed reply's message; otherwise the table is the mapped rows |
| Actipart.ActipartScreen.FetchPlanningEntriesData | components/forms/ActipartForm.tsx:250-273 | the planning entries are replaced only by a successful reply with a token; a missing list reads as empty |
| Actipart.ActipartScreen.AutoFillAssign | components/forms/ActipartForm.tsx:276-292 | with a packet chosen and entries loaded, a found packet fills kapan, party and weight; otherwise the form is untouched |
| Actipart.ActipartScreen.AutoFillSubmit | components/forms/ActipartForm.tsx:295-310 | the same rule for the submit form |
| Actipart.ActipartScreen.SelectSubmitPacket | components/forms/ActipartForm.tsx:655-666 | the submit form is rebuilt from the first assigned option with that number, or blanked when there is none; the date is kept |
| Actipart.ActipartScreen.EditAssign | components/forms/ActipartForm.tsx:521-523 | an input change replaces the assign form |
| Actipart.ActipartScreen.EditSubmit | components/forms/ActipartForm.tsx:732-734 | an input change replaces the submit form |
| Actipart.ActipartScreen.HandleAssign | components/forms/ActipartForm.tsx:318-398 | a failed check, a missing token or a failed reply changes no form and reloads nothing, and a failed reply's message is shown after the assign prefix; success resets the assign form to today, carries the packet number into the submit form and reloads both lists |
| Actipart.ActipartScreen.HandleSubmit | components/forms/ActipartForm.tsx:401-479 | a failed check, missing token or failed reply changes nothing but the notice, and a failed reply's message is shown after the submit prefix; success resets the submit form to today and reloads both lists |
| Actipart.ActipartScreen.KapanChoices | components/forms/ActipartForm.tsx:571 | the kapan dropdown of the current eligible list |
| Polishing.AssignedOnly | components/forms/ProcessingForm.tsx:86 | the submit dropdown holds exactly the entries whose status is "assigned", and no more entries than the reply |
| Polishing.AssignedOnlyIdempotent | components/forms/ProcessingForm.tsx:86 | filtering the filtered list again changes nothing |
| Polishing.PolishingScreen.constructor | components/forms/ProcessingForm.tsx:32-57 | empty forms dated today and empty lists |
| Polishing.PolishingScreen.FetchEligiblePackets | components/forms/ProcessingForm.tsx:60-74 | a successful reply replaces the assign list; a failure is reported and the list kept |
| Polishing.PolishingScreen.FetchAssignedPackets | components/forms/ProcessingForm.tsx:77-92 | a successful reply replaces the submit list by its "assigned" entries; a failure is reported and the list kept; every listed entry is "assigned" |
| Polishing.PolishingScreen.AutoFillAssign | components/forms/ProcessingForm.tsx:100-112 | a chosen packet in the eligible list fills kapan, party and weight; a packet not in it blanks those three fields; the assign button stays as enabled as it was |
| Polishing.PolishingScreen.AutoFillSubmit | components/forms/ProcessingForm.tsx:115-127 | the same fill-or-blank rule for the submit form against the assigned list; the submit button stays as enabled as it was |
| Polishing.PolishingScreen.EditAssign | components/forms/ProcessingForm.tsx:220 | an input change replaces the assign form, and the assign button is then enabled iff a packet is chosen |
| Polishing.PolishingScreen.EditSubmit | components/forms/ProcessingForm.tsx:290-355 | an input change replaces the submit form, and the submit button is then enabled iff a packet is chosen |
| Polishing.PolishingScreen.AssignEnabled | components/forms/ProcessingForm.tsx:269 | enabled iff a packet is chosen; `EditAssign` and `AutoFillAssign` state how it follows the form, and `HandleAssign` ensures a success disables it |
| Polishing.PolishingScreen.SubmitEnabled | components/forms/ProcessingForm.tsx:362 | the same rule for the submit button; `HandleSubmit` ensures a success disables it |
| Polishing.PolishingScreen.HandleAssign | components/forms/ProcessingForm.tsx:130-166 | a failed reply keeps the form and reloads nothing; success resets the form with today's date, which disables the button again, and reloads both lists |
| Polishing.PolishingScreen.HandleSubmit | components/forms/ProcessingForm.tsx:169-204 | a failed reply keeps the form; success resets it with today's date, disabling the button, and reloads only the assigned list |
| Planning.SubmittedPackets | components/forms/Planningform.tsx:65-67 | a packet number is offered iff some galaxy row with that number has status exactly "submitted"; a payload that is not an array offers nothing; otherwise the numbers are those of the submitted rows one for one, in server order and with repeats kept |
| Planning.UnsubmittedNotOffered | components/forms/Planningform.tsx:65-67 | a packet none of whose rows is "submitted" is never offered |
| Planning.AssignCheck | components/forms/Planningform.tsx:119-122 | the assign request goes out iff packet, planner and date are all filled |
| Planning.SubmitCheck | components/forms/Planningform.tsx:163-166 | the submit request goes out iff packet and planner are filled and a file is chosen |
| Planning.FormatNumber | components/forms/Planningform.tsx:197 | any falsy value, 0 and "" included, prints "-"; a non-zero number or non-empty text prints its two-decimal form |
| Planning.FormatNumberDashIffFalsy | components/forms/Planningform.tsx:197 | when the printer never prints a lone "-", the dash appears exactly for falsy values |
| Planning.StatusBadge | components/forms/Planningform.tsx:200-209 | the four known statuses get their own caption and colour; any other status gets the "Pending" badge |
| Planning.StatusBadgeLabels | components/forms/Planningform.tsx:201-206 | distinct known statuses get distinct captions, each one of the four |
| Planning.PlanningScreen.constructor | components/forms/Planningform.tsx:32-48 | empty forms and lists, no error |
| Planning.PlanningScreen.FetchAvailablePackets | components/forms/Planningform.tsx:55-73 | a successful reply replaces the dropdown by `SubmittedPackets`; a failure shows the fixed text "Failed to fetch available packets" and keeps the dropdown |
| Planning.PlanningScreen.FetchPlanningData | components/forms/Planningform.tsx:75-94 | success replaces the table and clears the error; a failure sets the error to its message and keeps the table |
| Planning.PlanningScreen.LoadAssignedPlanner | components/forms/Planningform.tsx:101-113 | with a packet chosen, a non-empty planner name from the server replaces the form's; otherwise the form is unchanged |
| Planning.PlanningScreen.EditAssign | components/forms/Planningform.tsx:310-340 | an input change replaces the assign form |
| Planning.PlanningScreen.EditSubmit | components/forms/Planningform.tsx:360-390 | an input change replaces the submit form |
| Planning.PlanningScreen.HandleAssign | components/forms/Planningform.tsx:115-157 | a failed check or reply changes no form and reloads nothing; success copies packet and planner into the submit form, empties the assign form and reloads both lists |
| Planning.PlanningScreen.HandleSubmit | components/forms/Planningform.tsx:159-193 | a failed check or reply keeps the form; success empties it and reloads only the table |
| Shine.AvailableFrom | components/forms/ShineForm.tsx:59-77 | a payload that is not an array offers nothing; otherwise a packet number is offered iff some planning row has it with a status other than 'submitted', and the numbers are those rows' one for one, in server order and with repeats kept |
| Shine.FillFor | components/forms/ShineForm.tsx:191-205 | a found planning row fills kapan, party (from the planner name) and weight; a packet that is not found blanks the three fields |
| Shine.FillFromFirstRow | components/forms/ShineForm.tsx:192 | the fill comes from the first planning row with that packet number, whatever its status |
| Shine.ShineScreen.constructor | components/forms/ShineForm.tsx:39-57 | both forms blank, both lists empty, no notice |
| Shine.ShineScreen.FetchAvailablePackets | components/forms/ShineForm.tsx:60-78 | a reply replaces the dropdown list by the packets not yet submitted; a failure keeps the old list |
| Shine.ShineScreen.FetchShineData | components/forms/ShineForm.tsx:150-175 | a reply replaces the table row for row with each status mapped; a failure keeps the table and shows an error |
| Shine.ShineScreen.AutoFillAssign | components/forms/ShineForm.tsx:178-213 | a blank packet number or a failed lookup changes nothing; otherwise only kapan, party and weight change, to the fill for that packet |
| Shine.ShineScreen.AutoFillSubmit | components/forms/ShineForm.tsx:215-251 | the same rule for the submit form |
| Shine.ShineScreen.EditAssign | components/forms/ShineForm.tsx:267-291 | an edit replaces the assign form and nothing else |
| Shine.ShineScreen.EditSubmit | components/forms/ShineForm.tsx:309-333 | an edit replaces the submit form and nothing else |
| Shine.ShineScreen.HandleAssign | components/forms/ShineForm.tsx:80-113 | only a reply whose body says success resets the form and reloads both lists; a refusal shows the server's message, or "Assignment failed" when it has none, and a failure an error, both keeping what was typed |
| Shine.ShineScreen.HandleSubmit | components/forms/ShineForm.tsx:115-148 | the same three outcomes for the submit form, with "Submission failed" as the fallback text |
| Dashboard.Band | app/dashboard/page.tsx:306-311 | the five weight bands with inclusive upper bounds 1, 2, 5 and 10 carats; every weight falls in exactly one |
| Dashboard.UnparsableWeightInFirstBand | app/dashboard/page.tsx:306-307 | a weight that does not parse counts as 0 and so lands in the 0-1ct band |
| Dashboard.Histogram | app/dashboard/page.tsx:296-312 | there are always five counters |
| Dashboard.SumZero | app/dashboard/page.tsx:297-303 | the counters start at a total of zero |
| Dashboard.SumBump | app/dashboard/page.tsx:307-311 | bumping one counter raises the total by one |
| Dashboard.HistogramTotal | app/dashboard/page.tsx:296-312 | the counters add up to the number of stocks |
| Dashboard.HistogramCounts | app/dashboard/page.tsx:305-312 | each counter is the number of stocks whose weight falls in its band |
| Dashboard.WeightDistribution | app/dashboard/page.tsx:296-318 | the loop yields the five labels in order and the counters of the histogram, which add up to the number of stocks |
| Dashboard.ProcessingStatus | app/dashboard/page.tsx:338-345 | in-progress and completed default to 0 and the three slices add up to the number of stocks |
| Dashboard.PendingCanBeNegative | app/dashboard/page.tsx:339 | pending is not clamped: one in-progress count and no stocks gives -1 |
| Dashboard.QualityOf | app/dashboard/page.tsx:364 | an empty quality is counted as 'Unknown', so no key is empty |
| Dashboard.Values | app/dashboard/page.tsx:369 | the values are the counts of the keys, key by key |
| Dashboard.OccurrencesSnoc | app/dashboard/page.tsx:363-366 | one more stock adds one to the count of its own quality only |
| Dashboard.OccurrencesPositive | app/dashboard/page.tsx:363-366 | a quality has a positive count iff some stock reports it |
| Dashboard.QualityTallyValid | app/dashboard/page.tsx:361-368 | the counter object's keys have no repeats and are exactly its counted qualities |
| Dashboard.QualityTallyCounts | app/dashboard/page.tsx:363-366 | a quality is a key iff it occurs, and its count is the number of stocks reporting it |
| Dashboard.QualityTallyCorrect | app/dashboard/page.tsx:360-369 | keys without repeats, exactly the reported qualities, each counted correctly |
| Dashboard.SumOverBump | app/dashboard/page.tsx:365 | bumping a key already present raises the sum of the values by one |
| Dashboard.ValuesUnchanged | app/dashboard/page.tsx:365 | bumping a key that is not listed leaves the listed values unchanged |
| Dashboard.SumAppend | app/dashboard/page.tsx:365 | adding a value at the end adds it to the sum |
| Dashboard.ValuesAppend | app/dashboard/page.tsx:365 | a new key adds the value 1 at the end |
| Dashboard.QualityTotal | app/dashboard/page.tsx:360-369 | the quality chart's values add up to the number of stocks |
| Dashboard.QualityAnalysis | app/dashboard/page.tsx:360-369 | the loop yields labels without repeats that are exactly the reported qualities, each value is its quality's count, and the values add up to the number of stocks |
| Dashboard.FilterInventory | app/dashboard/page.tsx:88-95 | a record is listed iff an empty search or a case-insensitive match in one of its five non-empty fields |
| Dashboard.EmptySearchKeepsAll | app/dashboard/page.tsx:89 | an empty search lists every record in order |
| Dashboard.LowerIdempotent | app/dashboard/page.tsx:89-94 | lower-casing twice is lower-casing once |
| Dashboard.SearchIgnoresTermCase | app/dashboard/page.tsx:89-94 | searching with the term lower-cased gives the same list |
| Dashboard.JsSlice | app/dashboard/page.tsx:97-100 | a slice is never longer than the list |
| Dashboard.Page | app/dashboard/page.tsx:97-100 | a page holds at most ten records |
| Dashboard.PageContents | app/dashboard/page.tsx:97-100 | on page p from 1 on, position k - 10(p-1) holds record k |
| Dashboard.EveryItemOnItsPage | app/dashboard/page.tsx:97-100 | record k is shown at position k % 10 of page k / 10 + 1 |
| Dashboard.PageZeroEmpty | app/dashboard/page.tsx:97-100 | page 0 shows nothing |
| Dashboard.PageCount | app/dashboard/page.tsx:774 | the page count is the ceiling of the record count over ten |
| Dashboard.InventoryView.constructor | app/dashboard/page.tsx:80-85 | no records, no search, page 1 |
| Dashboard.InventoryView.Shown | app/dashboard/page.tsx:97-100 | at most ten records are shown, each a loaded record matching the search |
| Dashboard.InventoryView.LoadInventory | app/dashboard/page.tsx:200-220 | a reply replaces the records; a failure keeps them |
| Dashboard.InventoryView.Search | app/dashboard/page.tsx:758-762 | typing sets the search and returns to page 1 |
| Dashboard.InventoryView.Previous | app/dashboard/page.tsx:778 | the page goes down by one but never below 1; while the button is disabled the page stays |
| Dashboard.InventoryView.Next | app/dashboard/page.tsx:785 | the page goes up by one but never past the page count; while the button is disabled the page stays |
| Dashboard.InventoryView.PreviousDisabled | app/dashboard/page.tsx:779 | disabled on page 1; `Dashboard.InventoryView.Previous` ensures the page stays while it is disabled |
| Dashboard.InventoryView.NextDisabled | app/dashboard/page.tsx:786 | disabled on the last page; `Dashboard.InventoryView.Next` ensures the page stays while it is disabled |
| Dashboard.FilterTransactions | app/dashboard/page.tsx:119-122 | a transaction is listed iff it has the chosen date (when one is chosen) and the chosen status (when one is chosen) |
| Dashboard.TransactionFilterComposes | app/dashboard/page.tsx:119-122 | filtering by both is filtering by date, then by status |
| Dashboard.NoTransactionFilterKeepsAll | app/dashboard/page.tsx:120-121 | with neither filter set every transaction is listed in order |
| Dashboard.TotalRemainingAppend | app/dashboard/page.tsx:611 | the total weight of two lists is the sum of their totals |
| Dashboard.TotalRemaining | app/dashboard/page.tsx:611 | the `reduce` of the remaining weights with `|| 0`; its meaning is given by `Dashboard.TotalRemainingAppend` and `Dashboard.TotalRemainingNonNegative` |
| Dashboard.TotalRemainingNonNegative | app/dashboard/page.tsx:611 | with no negative weights the total is not negative |
| DiamondDetails.ErrorMap | components/forms/DiamondDetailsForm.tsx:131-155 | one entry per failed check, each check failing exactly under its own condition (roughname shorter than 3, carat or price missing, unparsable or not positive, colour outside [0, 100], whiteness given and outside [0, 100], no vepari, no dalal), each with its non-empty message; no other key |
| DiamondDetails.ErrorsOnAdd | components/forms/DiamondDetailsForm.tsx:133-155 | one more check adds its message exactly when it fails |
| DiamondDetails.AccumulateIsErrorsOn | components/forms/DiamondDetailsForm.tsx:132-155 | running the checks one after another yields exactly the failed checks' entries |
| DiamondDetails.CheckOrderSteps | components/forms/DiamondDetailsForm.tsx:133-155 | the seven checks run in the source's order |
| DiamondDetails.CheckOrderIsErrorMap | components/forms/DiamondDetailsForm.tsx:132-155 | the checks in that order build the error map |
| DiamondDetails.ErrorMapSteps | components/forms/DiamondDetailsForm.tsx:133-155 | the error map is the seven conditional updates in order |
| DiamondDetails.ValidateForm | components/forms/DiamondDetailsForm.tsx:131-158 | the method yields the error map, and the form is valid iff the map is empty |
| DiamondDetails.EmptyPercentsAccepted | components/forms/DiamondDetailsForm.tsx:142-149 | an empty colour (Number('') is 0) and an empty whiteness (not checked) pass |
| DiamondDetails.AcceptedPayloadInRange | components/forms/DiamondDetailsForm.tsx:168-181 | a body built from a form without errors has a roughname of at least 3, positive price and carat, colour and whiteness within [0, 100], and both contact names |
| DiamondDetails.PayloadOf | components/forms/DiamondDetailsForm.tsx:168-180 | the request body built from the form; `DiamondDetails.AcceptedPayloadInRange` states the ranges it carries when the form has no errors |
| DiamondDetails.ContactMobile | components/forms/DiamondDetailsForm.tsx:341-342 | the mobile of the first contact with the chosen name, or '' when there is none |
| DiamondDetails.DiamondDetailsScreen.constructor | components/forms/DiamondDetailsForm.tsx:46-62 | a non-empty stored token is kept; otherwise the dropdowns show the log-in error |
| DiamondDetails.DiamondDetailsScreen.FetchLists | components/forms/DiamondDetailsForm.tsx:77-128 | without a token nothing changes; a vepari failure stops before the dalals; each failure shows its message, and two successes fill both lists and clear the error |
| DiamondDetails.DiamondDetailsScreen.ChooseVepari | components/forms/DiamondDetailsForm.tsx:338-343 | the name is stored, a pending vepari error is cleared to '', and the contact takes that vepari's mobile |
| DiamondDetails.DiamondDetailsScreen.ChooseDalal | components/forms/DiamondDetailsForm.tsx:392-397 | the same rule for the dalal |
| DiamondDetails.DiamondDetailsScreen.HandleSubmit | components/forms/DiamondDetailsForm.tsx:163-242 | the checks' map replaces the errors; an invalid form or a missing token sends nothing; otherwise the body is sent and the tab is marked complete only on an ok response that says success, any other outcome showing the server's message or the default failure |
| FinalDiamond.OfficeNames | components/forms/FinalDiamondform.tsx:56 | an office is listed iff some record has it, and no office twice |
| FinalDiamond.OfficeNamesFirstOrder | components/forms/FinalDiamondform.tsx:56 | offices are listed in order of first appearance |
| FinalDiamond.RoughNamesOf | components/forms/FinalDiamondform.tsx:74-77 | a rough name is listed iff some record of the chosen office has it, and no name twice |
| FinalDiamond.RoughList | components/forms/FinalDiamondform.tsx:69-77 | with no office chosen the list is empty; otherwise it is the office's rough names |
| FinalDiamond.StaleListKeepsForeignRough | components/forms/FinalDiamondform.tsx:79-81 | as written, switching from office A to office B keeps a rough name of A's that B's list does not hold |
| FinalDiamond.RoughAfterOfficeChangeAsWritten | components/forms/FinalDiamondform.tsx:69-81 | as written: with an office chosen the rough name is kept iff the previous list holds it (or it is already blank), otherwise cleared; with none it is kept |
| FinalDiamond.AsWrittenAgreesForSameList | components/forms/FinalDiamondform.tsx:74-81 | when the previous list is already the chosen office's, the rule as written and the corrected rule agree |
| FinalDiamond.RoughAfterOfficeChange | components/forms/FinalDiamondform.tsx:69-83 | with no office chosen the rough name is kept; otherwise it is kept iff the new office's list holds it and cleared to '' if not |
| FinalDiamond.RoughAfterOfficeChangeBelongs | components/forms/FinalDiamondform.tsx:78-81 | with an office chosen the rough name afterwards is blank or listed for that office, and a listed one is kept |
| FinalDiamond.TotalWeight | components/forms/FinalDiamondform.tsx:36-42 | the total is a number iff each of the three part weights is one |
| FinalDiamond.TotalWeightBlanks | components/forms/FinalDiamondform.tsx:38-40 | a blank or missing part counts as 0, and the initial record totals 0 |
| FinalDiamond.TotalWeightOfTyped | components/forms/FinalDiamondform.tsx:37-40 | three typed weights that parse add up |
| FinalDiamond.FinalDiamondScreen.constructor | components/forms/FinalDiamondform.tsx:30-34 | no records, no lists, total 0 |
| FinalDiamond.FinalDiamondScreen.FetchOfficeRecords | components/forms/FinalDiamondform.tsx:45-66 | a reply stores the records and the office list built from them; a failure keeps both and shows its message after the fixed "Office records" prefix |
| FinalDiamond.FinalDiamondScreen.OnOfficeChange | components/forms/FinalDiamondform.tsx:69-83 | the rough list becomes the one for the chosen office, and the only field that changes is the rough name, cleared unless the list as it stood before the run holds it |
| FinalDiamond.FinalDiamondScreen.RecomputeTotal | components/forms/FinalDiamondform.tsx:36-42 | the total becomes the sum of the record's three part weights |
| FinalDiamond.FinalDiamondScreen.HandleSubmit | components/forms/FinalDiamondform.tsx:85-119 | an ok response marks "measurements" and shows the server's message or the default; a failure marks nothing and shows its message after the fixed toast text, which as written reads "Final diamond submitted successfully!" |
| FormState.AllFieldsComplete | context/FormContext.tsx:3-33 | the record has exactly the 24 fields of the diamond data, all of them listed |
| FormState.InitialValue | context/FormContext.tsx:70-100 | every field starts with a falsy value: the dates undefined, the four weights 0, everything else '' |
| FormState.InitialData | context/FormContext.tsx:70-100 | the initial record holds every field, each at its initial value |
| FormState.InitialDataBlank | context/FormContext.tsx:70-100 | no field of the initial record is truthy |
| FormState.ShownError | context/FormContext.tsx:144-147 | an error is shown iff its field is touched and its message is non-empty, and then that message is shown |
| FormState.ShownErrorNeedsTouchAndText | context/FormContext.tsx:144-147 | an untouched field shows nothing, and clearing one field's error to '' hides it and no other |
| FormState.NothingTouchedNothingShown | context/FormContext.tsx:104 | with the touched set left empty no error is ever shown |
| FormState.FormStore.constructor | context/FormContext.tsx:70-104 | the initial record, no errors, nothing touched |
| FormState.FormStore.UpdateFormData | context/FormContext.tsx:106-108 | that field holds the value and every other field is as it was |
| FormState.FormStore.ResetFormData | context/FormContext.tsx:110-142 | the record is exactly the initial record again |
| FormState.FormStore.SetErrors | context/FormContext.tsx:103 | the error map is replaced |
| FormState.FormStore.SetTouchedFields | context/FormContext.tsx:104 | the touched set is replaced |
| FormState.FormStore.RenderError | context/FormContext.tsx:144-147 | the store shows the error the display rule gives |
| FormState.FormStore.MarkTabComplete | context/FormContext.tsx:148-150 | the store's marker changes no state |
| Tabs.Mark | components/TabSection.tsx:39-41 | marking adds the id and nothing else, removing nothing |
| Tabs.MarkIdempotent | components/TabSection.tsx:39-41 | marking a tab twice is marking it once |
| Tabs.MarkCommutes | components/TabSection.tsx:39-41 | the order two tabs are marked in does not matter |
| Tabs.MarkAllGrows | components/TabSection.tsx:39-41 | after any run of marks the set has grown by exactly the ids marked |
| Tabs.TabSection.constructor | components/TabSection.tsx:27-28 | the details tab is active and nothing is completed |
| Tabs.TabSection.MarkTabComplete | components/TabSection.tsx:39-41 | the completed set gains the id: that tab shows its check mark afterwards, and every other tab shows one iff it did before |
| Tabs.TabSection.SetActiveTab | components/TabSection.tsx:46 | any tab can become active, and the completed set is untouched |
| Tabs.TabSection.ShowsCheck | components/TabSection.tsx:58 | a tab shows its check mark iff its id is in the completed set; `Tabs.TabSection.MarkTabComplete` ensures the marked tab shows it and no other tab changes |
| Contacts.FailureText | components/forms/TransactionForm.tsx:117-119 | the server's message when it gives one, else the "Failed to <verb> <kind>" fallback; never empty |
| Contacts.CheckEntry | components/forms/TransactionForm.tsx:198-205 | the entry is refused iff the trimmed name or mobile is empty, and an accepted one is the trimmed pair |
| Contacts.CheckEntryBlank | components/forms/TransactionForm.tsx:198-205 | refused exactly when a field is nothing but white space; an accepted entry has white space at neither end |
| Contacts.ReplaceById | components/forms/TransactionForm.tsx:217 | same length; every contact with the edited id becomes the updated one, every other stays |
| Contacts.Ids | components/forms/TransactionForm.tsx:217 | the ids of the list, in order |
| Contacts.EditKeepsIds | components/forms/TransactionForm.tsx:217 | an edit keeps the list's ids in their places |
| Contacts.EditPlacesContact | components/forms/TransactionForm.tsx:211-217 | after editing a listed contact the list holds the new version and no other contact with that id |
| Contacts.EditAbsentAndTwice | components/forms/TransactionForm.tsx:217 | editing an id nobody has changes nothing, and editing twice is editing once |
| Contacts.RemoveById | components/forms/TransactionForm.tsx:237-241 | a contact is kept iff it was listed and has another id |
| Contacts.DeleteAbsentAndTwice | components/forms/TransactionForm.tsx:237-241 | deleting an id nobody has changes nothing, and deleting twice is deleting once |
| Contacts.DeleteAfterAdd | components/forms/TransactionForm.tsx:224 | deleting after an append removes the id wherever it is, the appended contact included |
| Contacts.AfterSave | components/forms/TransactionForm.tsx:211-225 | an edit replaces by id with the trimmed entry; an add appends the server's new contact |
| Contacts.FetchFailure | components/forms/TransactionForm.tsx:75-78 | a failed fetch shows the vepari reply's message, else the dalal reply's, else "Failed to fetch contacts"; never empty |
| Contacts.ContactBook.List | components/forms/TransactionForm.tsx:216 | the list the kind selects |
| Contacts.ContactBook.constructor | components/forms/TransactionForm.tsx:25-47 | empty lists, closed modal, vepari kind; a non-empty stored token is kept, and without one the error asks the user to log in |
| Contacts.ContactBook.FetchContacts | components/forms/TransactionForm.tsx:63-106 | without a token nothing changes; two successes replace both lists; otherwise the vepari message, else the dalal message, else the fallback, with both lists as they were |
| Contacts.ContactBook.OpenAddModal | components/forms/TransactionForm.tsx:181-187 | an empty form for a new contact of that kind, no error, the modal open |
| Contacts.ContactBook.OpenEditModal | components/forms/TransactionForm.tsx:189-195 | the form shows the chosen contact, no error, the modal open |
| Contacts.ContactBook.EditForm | components/forms/TransactionForm.tsx:350-359 | typing sets the two form fields |
| Contacts.ContactBook.SaveContact | components/forms/TransactionForm.tsx:109-155 | a blank entry or a missing token sends nothing and says why; a failure shows the server's message or the fallback and keeps lists and modal; a success updates only the current kind's list by the save rule and closes the modal |
| Contacts.ContactBook.DeleteContact | components/forms/TransactionForm.tsx:157-177 | a missing token or a failure changes only the error; a success removes the id from the chosen list and leaves the other list alone |
| Contacts.ContactBook.SaveContactAsWritten | components/forms/TransactionForm.tsx:63-106 | as written, the render after a save re-runs the fetch effect: with a token held the error afterwards is the fetch's own (none when both lists load) and the lists are the server's, so a failed save's message does not survive; when that fetch fails, or no token is held, the lists are as the save left them; the modal closes exactly when the save succeeded |
| Contacts.ContactBook.DeleteContactAsWritten | components/forms/TransactionForm.tsx:63-106 | as written, the render after a delete re-runs the fetch effect, which clears a failed delete's message and replaces both lists by the server's; when that fetch fails, or no token is held, the chosen list is as the delete left it and the other list is unchanged |
| Auth.LocalStorage.constructor | context/auth-context.tsx:34-35 | the store holds the given items |
| Auth.LocalStorage.GetItem | context/auth-context.tsx:34-35 | null exactly for an absent key, otherwise the stored text |
| Auth.LocalStorage.SetItem | context/auth-context.tsx:78-83 | that key now holds the value and every other key is as it was |
| Auth.LocalStorage.RemoveItem | context/auth-context.tsx:92-93 | that key is gone and every other key is as it was |
| Auth.SignedIn | context/auth-context.tsx:63-69 | the user keeps name, email, token and role, and is admin iff the role is "admin", whatever flag was passed |
| Auth.AfterLogin | context/auth-context.tsx:78-83 | the token and the JSON of name, email and role are stored under their keys; every other key is unchanged |
| Auth.AfterLogout | context/auth-context.tsx:92-93 | both keys are gone; every other key is unchanged |
| Auth.Restored | context/auth-context.tsx:33-52 | a user is restored iff both keys hold non-empty text and the record parses; it carries the stored token and is admin iff its role is "admin" |
| Auth.LoginThenReload | context/auth-context.tsx:32-86 | signing in with a non-empty token then reloading restores exactly the signed-in user |
| Auth.EmptyTokenLostOnReload | context/auth-context.tsx:37 | a session with an empty token is not restored on reload |
| Auth.LogoutThenReload | context/auth-context.tsx:88-94 | after logout a reload restores nobody, and logging out twice is logging out once |
| Auth.AuthContext.constructor | context/auth-context.tsx:27-29 | nobody signed in, the dialog closed, still loading |
| Auth.AuthContext.LoadUserFromStorage | context/auth-context.tsx:32-55 | the restored user when there is one, the user as it was otherwise; loading ends either way |
| Auth.AuthContext.Login | context/auth-context.tsx:57-86 | the user becomes the signed-in user, the store is updated as after login, and the dialog closes |
| Auth.AuthContext.Logout | context/auth-context.tsx:88-94 | nobody signed in and the store as after logout |
| Auth.AuthContext.OpenLogin | context/auth-context.tsx:103 | the dialog is open |
| Auth.AuthContext.CloseLogin | context/auth-context.tsx:104 | the dialog is closed |
| Login.RunChars | app/login/page.tsx:48 | a `[^\s@]+` run holds no '@' and no white space |
| Login.RunSlice | app/login/page.tsx:48 | a non-empty slice without white space or '@' is a run |
| Login.AbsentFromSlice | app/login/page.tsx:48 | a character absent from a slice is absent at each of its positions |
| Login.CutAt | app/login/page.tsx:48 | a string is its parts before the '@', between '@' and '.', and after the '.' |
| Login.ValidatedMatches | app/login/page.tsx:47-49 | every address the decision procedure accepts matches the e-mail pattern |
| Login.ShapeOf | app/login/page.tsx:48 | three runs joined by '@' and '.' match the pattern |
| Login.NoWhitespaceConcat | app/login/page.tsx:48 | joining two strings without white space gives one without white space |
| Login.MatchesValidated | app/login/page.tsx:47-49 | every address matching the pattern is accepted |
| Login.ValidateEmailIsPattern | app/login/page.tsx:47-49 | the check accepts an address iff it matches `^[^\s@]+@[^\s@]+\.[^\s@]+$` |
| Login.ValidateEmail | app/login/page.tsx:47-49 | an accepted address has no white space, at least five characters and no '@' first; `Login.ValidateEmailIsPattern` proves it accepts exactly what the regular expression matches |
| Login.EmailAccepted | app/login/page.tsx:48 | "a@b.c" is accepted |
| Login.DotAfterAtRefused | app/login/page.tsx:48 | "a@.c" is refused: the part between '@' and '.' may not be empty |
| Login.TrailingDotRefused | app/login/page.tsx:48 | "a@b." is refused: the part after the '.' may not be empty |
| Login.SecondAtRefused | app/login/page.tsx:48 | "a@b@c.d" is refused: no second '@' |
| Login.PasswordError | app/login/page.tsx:58-62 | no error iff at least six characters; an empty password is "required", a shorter one "too short" |
| Login.LoginErrors | app/login/page.tsx:52-62 | a username error iff the username is blank after trimming, a password error iff it is shorter than six, with their messages, and no other key |
| Login.EmailError | app/login/page.tsx:125-129 | no error iff the address is not blank and matches the pattern; a blank one is "required" |
| Login.SignupErrors | app/login/page.tsx:119-139 | one entry per failed rule (blank username, blank or malformed e-mail, short password, mismatched confirmation) with its message, and no other key |
| Login.SignupAcceptsWellFormed | app/login/page.tsx:119-142 | a non-blank username, a well-formed address and a six-character password typed twice pass every check |
| Login.LoginUser | app/login/page.tsx:85-91 | reply fields win over typed ones, the role defaults to "user", the flag is admin iff the reply's role is "admin" |
| Login.RequestedRole | app/login/page.tsx:154 | the request asks for "admin" iff the box is ticked, "user" otherwise |
| Login.SignupUser | app/login/page.tsx:164-170 | reply fields win over typed ones, and the role falls back to the one requested |
| Login.SessionAdminIffRole | app/login/page.tsx:85-91 | the session started is admin exactly when its role is "admin", and the session keeps the user as handed over |
| Login.CheckLogin | app/login/page.tsx:52-62 | the checks filled in one by one give the login errors |
| Login.CheckSignup | app/login/page.tsx:119-139 | the checks filled in one by one give the sign-up errors |
| Login.LoginPage.constructor | app/login/page.tsx:28-45 | the login tab, no errors, both forms empty |
| Login.LoginPage.SwitchTab | app/login/page.tsx:220-223 | switching tabs clears every error |
| Login.LoginPage.EditLogin | app/login/page.tsx:238-290 | typing replaces the login form |
| Login.LoginPage.EditSignup | app/login/page.tsx:316-388 | typing replaces the sign-up form |
| Login.LoginPage.HandleLogin | app/login/page.tsx:51-116 | a request is made iff the checks pass; failed checks leave their errors and the session untouched; a failed reply leaves only the form error; a success starts the session, remembers the name when asked, and empties the form |
| Login.LoginPage.HandleSignup | app/login/page.tsx:118-192 | the request is sent iff the checks pass, with the role the box asks for; the same three outcomes as sign-in, with the sign-up user |
| RouteGuard.Guard | components/ProtectedRoute.tsx:15-30 | as written: the page renders iff someone is signed in and, on an admin-only page, is an admin; otherwise nobody goes to /login and a non-admin to /unauthorized |
| RouteGuard.GuardMonotone | components/ProtectedRoute.tsx:19-28 | a page that is not admin-only admits every signed-in user, an admin passes every guard, and passing the admin guard implies passing the plain one |
| RouteGuard.ReloadSendsStoredSessionToLogin | components/ProtectedRoute.tsx:15-24 | as written, the first evaluation after a reload sends a visitor whose session is stored to /login |
| RouteGuard.LoadingGuard | components/ProtectedRoute.tsx:15-30 | corrected: while the provider is loading nothing is redirected or rendered; afterwards the page renders iff the user may see it, and exactly the refused visitors are redirected |
| RouteGuard.ReloadKeepsStoredSession | components/ProtectedRoute.tsx:15-30 | with the loading flag honoured, the mount state redirects nowhere and the restored user sees the page iff allowed |
| RouteGuard.SessionPassesAdminGuard | components/ProtectedRoute.tsx:21-28 | after login, and after login and a reload, an admin-only page opens exactly for the "admin" role |
| RouteGuard.LoggedOutRedirectsToLogin | components/ProtectedRoute.tsx:19-20 | after logout and a reload every guarded page sends the visitor to /login |
| Cookies.SetCookie | lib/cookies.ts:18-46 | the line grown piece by piece is the pair followed by the attributes expires, path (always, "/" by default), domain, secure and samesite, each only when given |
| Cookies.CookieLineShape | lib/cookies.ts:21-43 | the line begins with the name, '=' and the encoded value, and the next character is the ';' of the first attribute |
| Cookies.CookieLine | lib/cookies.ts:21-45 | the line `setCookie` writes; `Cookies.SetCookie`, `Cookies.CookieLineShape`, `Cookies.FullLine` and `Cookies.PathAlwaysEmitted` state its shape |
| Cookies.DefaultLine | lib/cookies.ts:18-31 | with no option set the line is the pair and "; path=/" only |
| Cookies.FullLine | lib/cookies.ts:23-43 | with every option set the attributes come in the order expires, path, domain, secure, samesite |
| Cookies.PathAlwaysEmitted | lib/cookies.ts:27-31 | every line carries a path attribute, "/" when none is given |
| Cookies.ExtendKeeps | lib/cookies.ts:21-43 | growing the line keeps what is already written |
| Cookies.CookieLookup | lib/cookies.ts:51-64 | nothing iff no trimmed segment has the name before its first '='; otherwise the first segment that does decides, its value decoded or a decoding error |
| Cookies.GetCookie | lib/cookies.ts:51-64 | the loop returns what the lookup rule gives, stopping at the first matching segment |
| Cookies.FirstSegmentIsPair | lib/cookies.ts:21-54 | the first ';'-segment of a written line is its name=value pair |
| Cookies.PairSplits | lib/cookies.ts:57 | a written pair is already trimmed and splits on '=' into the name and the encoded value |
| Cookies.SetThenGet | lib/cookies.ts:18-64 | reading a written line back by its name gives the value written |
| Cookies.AbsentNameIsMissing | lib/cookies.ts:56-63 | a header in which no segment carries the name gives null |
| Cookies.DeleteIsExpiredEmptyCookie | lib/cookies.ts:69-73 | deleting writes the line setCookie would write for an empty value that expired at the epoch, on the same path |
| Cookies.DeleteLine | lib/cookies.ts:69-73 | the line `deleteCookie` writes, with the root path as default; `Cookies.DeleteIsExpiredEmptyCookie` proves it is the line of an empty cookie expired at the epoch |
| Cookies.ClearAuthLines | lib/cookies.ts:130-133 | both authentication cookies are deleted on the root path |
| Cookies.AuthLines | lib/cookies.ts:78-97 | two lines are written, the user record then the token |
| Cookies.AuthCookies | lib/cookies.ts:102-125 | no user cookie, or an empty one, gives no session; a non-empty cookie gives the session it parses to, or none when the parse fails; a malformed escape in the cookie throws out of the read, since `getCookie` runs outside the `try`; a session is always the parse of the stored text |
| Cookies.AuthNamesPlain | lib/cookies.ts:92-93 | the two cookie names can be read back |
| Cookies.AuthUserRoundTrip | lib/cookies.ts:78-125 | reading back the user line gives the user stored |
| Cookies.AuthTokenRoundTrip | lib/cookies.ts:51-93 | reading back the token line gives the token |
| PlanningDetails.StatusColor | components/pages/PlaningDetails.tsx:82-86 | green, blue and yellow for the three known statuses, grey for any other status and for a missing one |
| PlanningDetails.ReplaceFirstUnderscore | components/pages/PlaningDetails.tsx:120 | the length is kept, and a status without '_' is unchanged |
| PlanningDetails.ReplaceFirstShape | components/pages/PlaningDetails.tsx:120 | only the first '_' becomes a space; everything before and after it is kept |
| PlanningDetails.CapitalizeWords | components/pages/PlaningDetails.tsx:120 | exactly the characters that start a word (a word character after none) are upper-cased |
| PlanningDetails.StatusLabel | components/pages/PlaningDetails.tsx:120 | no label iff no status, and the label is as long as the status |
| PlanningDetails.UpperKeepsWordness | components/pages/PlaningDetails.tsx:120 | upper-casing keeps a word character one and leaves any other character as it is |
| PlanningDetails.CapitalizeWordsProperties | components/pages/PlaningDetails.tsx:120 | capitalising twice is capitalising once, and it changes letters only in case |
| PlanningDetails.Title | components/pages/PlaningDetails.tsx:120 | a word's title case changes at most its first character |
| PlanningDetails.CapitalizeAroundSpace | components/pages/PlaningDetails.tsx:120 | a space separates words, so each side is capitalised on its own |
| PlanningDetails.CapitalizeLowerWord | components/pages/PlaningDetails.tsx:120 | a lower-case word is capitalised to its title case |
| PlanningDetails.ReplaceJoined | components/pages/PlaningDetails.tsx:120 | the first '_' of `a_b` is the one after `a` when `a` has none |
| PlanningDetails.TwoWordLabel | components/pages/PlaningDetails.tsx:120 | a status of two lower-case words joined by '_' (in_progress, on_hold) reads as both words in title case with a space between |
| PlanningDetails.SecondUnderscoreKept | components/pages/PlaningDetails.tsx:120 | a second '_' stays and the letter after it is not capitalised: "a_b_c" reads "A B_c" |
| PlanningDetails.FormatDate | components/pages/PlaningDetails.tsx:68-80 | an empty or invalid date shows "-", a valid one its en-GB text |
| PlanningDetails.Cell | components/pages/PlaningDetails.tsx:160-162 | only a missing value shows "-"; anything else, empty or zero included, is shown as it is |
| PlanningDetails.PercentCell | components/pages/PlaningDetails.tsx:147-154 | "-" iff the value is missing, otherwise the two-decimal text followed by '%' |
| PlanningDetails.RupeeCell | components/pages/PlaningDetails.tsx:155-156 | "-" iff the value is missing, otherwise '₹' followed by the two-decimal text |

## Left out

- Requests and their plumbing are not modelled: `fetch`, endpoints, headers and JSON bodies. Each server reply is an input to the operation that makes the request.
- Reloads a handler triggers are returned as a set of list names. The fetch they start is modelled by the screen's own `Fetch...` method.
- Rendering is not modelled: JSX, styling, toasts, alerts and the `setTimeout` notification expiry. The components only display these.
- Chart.js is not modelled (construction and destruction on the dashboard). It is a foreign library.
- Per-screen `loading` flags are left out. They only dim buttons.
- Concurrency is left out: async races between overlapping requests and stale responses. Every handler runs to completion before the next event.
- The wall clock is a parameter: `new Date().toISOString().split("T")[0]` is the `today` argument.
- Number handling is a parameter. `parseFloat`, `Number`, `toFixed`, `toLocaleString` and number-to-text live in `Foreign.Numerics` or are passed as functions. Floating-point rounding is not modelled, including the two-decimal rounding of the final-diamond total.
- PlanningDetails.FormatDate: the en-GB date and time format is a parameter. Only the "-" cases are stated.
- `String(...)` coercion of server fields is left out. Values that reach the model are already text.
- Lengths count UTF-16 units in JavaScript, but the model counts characters of the string. The two agree on the text the checks see.
- The regular-expression class `\s` is the fixed character set `Common.IsWhitespace`: the ECMAScript WhiteSpace and LineTerminator characters, with the space separators of current Unicode. Later additions to Unicode are not tracked.
- The browser cookie jar is not modelled: expiry, domain and path matching, and the `typeof document` guard for server rendering. The cookie header is a plain string, and each write returns the line it would assign.
- JSON records with missing fields are read as the empty string or `None`. The model does not distinguish `undefined` from a missing key beyond that.
- The branches for thrown values that are not `Error` objects only change a toast's text. They are folded into the same failure.
- DiamondDetails.DiamondDetailsScreen.HandleSubmit: a non-JSON reply and a parse error are folded into `RequestFailed`. The source shows them as different alerts.
- Login.LoginPage.HandleLogin: the network-failure text "Login failed. Please try again." is folded into the message-or-fallback rule with "Login failed".
- Login.LoginPage.HandleSignup: the same folding: the catch's fallback "Registration failed. Please try again." (app/login/page.tsx:180-187) is folded into the message-or-fallback rule with "Registration failed".
- Failure messages: `Outcome.Failed` carries the message of the error the request raised. For a non-2xx status that is the fixed text the screen itself throws, for example "Failed to fetch eligible packets" and "Failed to fetch entries" (components/forms/ProcessingForm.tsx:67, 84) or "Failed to fetch office processing" (components/forms/FinalDiamondform.tsx:52). The model does not tell which texts a status or a network error produces. It keeps the prefixes the screens put before the message, including the one of the final-diamond submit, which reads "submitted successfully!" although it is shown on failure. The branch for a thrown value that is not an `Error`, which shows a fixed "unknown error" text, is not modelled.
- Common.Lower: folds only the ASCII letters A to Z. JavaScript's `toLowerCase` folds all of Unicode, for example "É" to "é", and can change the length, as with "İ". Values outside ASCII are compared with their case as written.
- Dashboard.FilterInventory: case-insensitive only over ASCII, because it is built on `Common.Lower`. A search for "é" does not match "É" in the model, though it does in the browser.
- Contacts.ContactBook.FetchContacts: models one run of the fetch effect. As written, the effect re-runs after every render while a token is held (see Findings). Only the run after a save or a delete is modelled, by the two `AsWritten` methods. The unbounded chain of re-renders those runs cause is not modelled.
- Contacts.ContactBook.SaveContact: states the intended behaviour, where the save's message stays on screen. As written, the next render's fetch clears it; `Contacts.ContactBook.SaveContactAsWritten` states that.
- Contacts.ContactBook.DeleteContact: states the intended behaviour, where a failed delete's message stays on screen. As written, the next render's fetch clears it; `Contacts.ContactBook.DeleteContactAsWritten` states that.
- Dashboard.QualityAnalysis: lists qualities in first-seen order. JavaScript's `Object.keys` lists integer-like keys first in ascending order, so a quality such as "1" would come first there. This is a weaker ordering claim than the engine's.
- JavaScript prototype keys such as "constructor" are not modelled in the status and colour lookups. A real object literal resolves them through its prototype.
- The polishing screen sends its requests without checking that a token is held, as the source does. A missing token shows up only as the server's failure reply, which is the outcome input.
- PlanningDetails.TwoWordLabel: "in_progress" becoming "In Progress" is stated for every status of two lower-case words joined by "_". It is not evaluated on the literal.
- Most dashboard and planning-details cells only display a field. Only the placeholder rules are modelled: `Cell`, `PercentCell`, `RupeeCell` and `FormatDate`.
- `resetFormData` is defined in `context/FormContext.tsx` but not exported through the provider's value. `FormState.FormStore.ResetFormData` models the function itself.
- No screen ever assigns `touchedFields`. The model keeps a setter, `FormState.FormStore.SetTouchedFields`, so that the display rule can be stated.
- File upload and download are left out: the CSV attached to a planning submission and blobs. The planning model records only whether a file was chosen.
- Files outside the core are not part of this model: the nung separation and office processing forms, user administration, the navigation bar, the tab strip and the static pages. They hold no client-side rule beyond a required-field check and a post.

## Findings

| source | as written | input that shows it | evidently intended | confidence | as-written member | corrected member |
|---|---|---|---|---|---|---|
| components/forms/FinalDiamondform.tsx:79-81 | after an office change the chosen rough name is kept when it is in the rough-name list of the previous render, which still belongs to the old office | records A with rough r1 and B with rough r2; with office A and rough r1 chosen, switch to office B: r1 is kept although office B has no r1 | keep the rough name only when it is in the new office's list | high, not executed | FinalDiamond.RoughAfterOfficeChangeAsWritten, FinalDiamond.StaleListKeepsForeignRough | FinalDiamond.RoughAfterOfficeChange, FinalDiamond.RoughAfterOfficeChangeBelongs |
| components/ProtectedRoute.tsx:15-28 | the guard ignores the provider's loading flag, so its first evaluation sees the initial user, nobody | a signed-in visitor reloads a guarded page; the session is in storage, yet the first evaluation redirects to /login | render nothing and redirect nowhere until the stored session has been read (line 27 mentions a loading spinner) | medium, not executed | RouteGuard.Guard, RouteGuard.ReloadSendsStoredSessionToLogin | RouteGuard.LoadingGuard, RouteGuard.ReloadKeepsStoredSession |
| components/forms/TransactionForm.tsx:63-106 | the fetch effect depends on `getAuthHeaders`, a closure created anew on every render, so it runs after every render while a token is held; each run clears the error and reads both lists again | a token is held and a save fails with "Duplicate mobile": the error is set, the component renders, the effect runs and `setError(null)` removes the message | fetch when the token changes, as the comments at lines 62 and 106 say, so the message of a failed save or delete stays | high, not executed | Contacts.ContactBook.SaveContactAsWritten, Contacts.ContactBook.DeleteContactAsWritten | Contacts.ContactBook.SaveContact, Contacts.ContactBook.DeleteContact |

The screen method `FinalDiamond.FinalDiamondScreen.OnOfficeChange` applies the rule as written. `FinalDiamond.RoughAfterOfficeChange` is the corrected rule, stated on its own. The `ContactBook` methods `SaveContact` and `DeleteContact` state the intended single-fetch behaviour. Their `AsWritten` companions add the fetch run that follows.
