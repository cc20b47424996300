# FlexiSpace booking core, modelled in Dafny

FlexiSpace is a front end for renting out venues. Almost all of it is
presentation. This project models the parts that carry business rules:

- **The booking wizard** (`src/pages/BookingPage.tsx`). It has four steps
  walked one at a time with Next and Back, and a stepper that marks the steps
  already passed. Add-on services are toggled by id. The price is the hourly
  rate times the hours between two "HH:MM" times, plus the services; catering
  is charged per guest and every other category once. The simulated
  smart-contract confirmation goes idle → processing → confirmed. When it is
  confirmed, a booking record is written at the front of the stored booking
  list.
- **The host-listing wizard** (`src/pages/HostSpacePage.tsx`). It has six steps
  and a form that is replaced record by record. Each step has a validity rule
  (title and city after trimming, a positive base price, one usable image
  URL) that enables or disables Next. On the last step Submit takes Next's
  place.
- **The dashboard's lookups** (`src/pages/UserDashboard.tsx`). These are the
  loyalty tier table, the current and next tier, the points still needed,
  and the colour, icon and actions that a booking's status selects.

Files, one module each:

- `opt.dfy`: `Opt`, the Option type. None stands for `undefined` or `NaN`.
- `jstext.dfy`: `JsText`, JavaScript `trim` over ECMAScript white space and
  line terminators, and `.length`, which counts UTF-16 code units (a
  character above U+FFFF counts twice).
- `clock.dfy`: `Clock`, the "HH:MM" values of a time input as minutes after
  midnight.
- `pricing.dfy`: `Pricing`, the hours, service costs and totals.
- `selection.dfy`: `ServiceSelection`, toggling services in and out of the
  selection.
- `booking.dfy`: `BookingFlow`. It holds the booking steps, the booking
  record, the dialog's lifecycle as pure transitions, and the class
  `BookingWizard` with the page's state and handlers.
- `listing.dfy`: `Listing`. It holds the listing form, the step rules, the
  form edits, the button gating, and the class `ListingWizard`.
- `dashboard.dfy`: `Dashboard`, the tier and status rules.

How the model treats things outside Dafny:

- **Timers.** The two `setTimeout` callbacks become methods that the caller
  invokes: `ProcessingElapsed` and `ExitElapsed`. A processing callback that
  has been scheduled and has not run yet is a queue entry, oldest first. The
  entry holds the date, the time text and the total as they were when
  "Confirm & Pay" was clicked, because the callback closes over that render's
  state. The record id (`Date.now()`) is a parameter.
- **Storage.** The stored list is a `seq<BookingRecord>` field. It is read and
  then rewritten whole, with the new record first.
- **Navigation.** Leaving for the dashboard is a flag.
- **Numbers.** Times are integer minutes. Hours and totals are exact reals. A
  time string that is non-empty but cannot be parsed gives `NaN` in the page;
  here it gives None, which carries through to the total and the stored
  amount (JSON writes `NaN` as `null`). The page's hours and totals are
  IEEE doubles, so they can differ from the exact values in the last digits;
  "## Left out" says how.

What the code does that a reader might not expect:

- The booking wizard's Next has no validity gate. It only stops at the last
  step, and that last step's Next button is disabled.
- The Cancel action of the confirmation dialog is shown only when the dialog
  is neither processing nor confirmed. But the dialog only ever opens
  together with processing = true. So in every state the page can reach,
  Cancel is never shown and never does anything. See
  `BookingFlow.CancelNeverShownWhileOpen` and `BookingFlow.BookingWizard.Cancel`.
- `calculateHours` does not clamp. An end time at or before the start time
  gives zero or negative hours, and so a smaller total.

## Model

| member | source | states |
|---|---|---|
| `JsText.Trim` | src/pages/HostSpacePage.tsx:136 | `trim()` is never longer than its input and its result neither starts nor ends with white space |
| `JsText.CodeUnits` | src/pages/HostSpacePage.tsx:136 | a character takes one UTF-16 code unit below U+10000 and two from U+10000 on |
| `JsText.Utf16Length` | src/pages/HostSpacePage.tsx:136-140 | `.length` counts UTF-16 code units: at least the number of characters and at most twice it |
| `JsText.Utf16LengthAppend` | src/pages/HostSpacePage.tsx:136 | `.length` of a concatenation is the sum of the lengths |
| `JsText.Utf16LengthIsSizeIffBmp` | src/pages/HostSpacePage.tsx:136 | `.length` equals the number of characters exactly when no character lies above U+FFFF |
| `JsText.TrimStartShape` | src/pages/HostSpacePage.tsx:136 | leading trim keeps a suffix, cuts only white space, and the rest starts with a non-space |
| `JsText.TrimEndShape` | src/pages/HostSpacePage.tsx:136 | trailing trim keeps a prefix, cuts only white space, and the rest ends with a non-space |
| `JsText.TrimIsInnerSlice` | src/pages/HostSpacePage.tsx:136 | `trim()` gives a contiguous piece of the string with only white space cut on both sides and no white space at its ends |
| `JsText.TrimIdempotent` | src/pages/HostSpacePage.tsx:136 | trimming twice equals trimming once |
| `JsText.TrimEmptyIffAllSpace` | src/pages/HostSpacePage.tsx:140 | a string trims to empty exactly when it is all white space |
| `JsText.TrimPadded` | src/pages/HostSpacePage.tsx:136 | any white space before and any (possibly different) white space after a string does not change the trimmed string |
| `JsText.TrimStartPadded` | src/pages/HostSpacePage.tsx:136 | leading white space is cut entirely by the leading trim |
| `JsText.TrimEndPadded` | src/pages/HostSpacePage.tsx:136 | trailing white space is cut entirely by the trailing trim |
| `JsText.TrimStartAppend` | src/pages/HostSpacePage.tsx:136 | appending white space commutes with the leading trim, up to the trailing trim |
| `JsText.TrimUnpadded` | src/pages/HostSpacePage.tsx:136 | a string with non-space characters at both ends trims to itself |
| `Clock.ParseClock` | src/pages/BookingPage.tsx:159-160 | a time string that parses gives a minute inside one day (0..1439) |
| `Clock.ParseClockText` | src/pages/BookingPage.tsx:159-160 | every minute of the day, written as "HH:MM", parses back to itself |
| `Clock.ClockTextParse` | src/pages/BookingPage.tsx:159-160 | every string that parses is the canonical "HH:MM" text of its minute |
| `Pricing.ServiceCost` | src/pages/BookingPage.tsx:168 | catering costs the price times the guest count; every other category costs its flat price |
| `Pricing.ServicesTotal` | src/pages/BookingPage.tsx:167-169 | the services total is non-negative when every service's cost is |
| `Pricing.ServicesTotalAppend` | src/pages/BookingPage.tsx:167-169 | the services total of a concatenation is the sum of the two totals |
| `Pricing.ServicesTotalRemoveAt` | src/pages/BookingPage.tsx:167-169 | taking one entry out of the selection subtracts exactly its cost |
| `Pricing.ServicesTotalPermutation` | src/pages/BookingPage.tsx:167-169 | two selections with the same services in any order have the same total |
| `Pricing.Hours` | src/pages/BookingPage.tsx:157-162 | hours are 0 when either time is empty, NaN when a non-empty time does not parse, and otherwise (end − start) in minutes / 60, unclamped |
| `Pricing.HoursOfClockTexts` | src/pages/BookingPage.tsx:157-162 | between two clock times the hours are the minute difference / 60, and they are positive exactly when the end is later |
| `Pricing.Total` | src/pages/BookingPage.tsx:164-171 | the total is NaN exactly when the hours are |
| `Pricing.TotalDecomposition` | src/pages/BookingPage.tsx:164-171 | total = rate × hours + services total, and NaN exactly when the hours are NaN |
| `Pricing.TotalPermutation` | src/pages/BookingPage.tsx:164-171 | the booking total does not depend on the order of selection |
| `Pricing.TotalAddService` | src/pages/BookingPage.tsx:164-171 | selecting one more service adds exactly its cost to the total |
| `ServiceSelection.RemoveId` | src/pages/BookingPage.tsx:151 | the filtered list has no entry with the id, keeps every entry with another id, and adds nothing |
| `ServiceSelection.RemoveIdAppend` | src/pages/BookingPage.tsx:151 | filtering commutes with concatenation, so the kept entries stay in order |
| `ServiceSelection.RemoveIdAbsent` | src/pages/BookingPage.tsx:151 | filtering out an id that is not present leaves the list unchanged |
| `ServiceSelection.RemoveIdUnique` | src/pages/BookingPage.tsx:151 | filtering keeps ids distinct |
| `ServiceSelection.UniqueOthers` | src/pages/BookingPage.tsx:151 | with distinct ids, no other entry shares an entry's id |
| `ServiceSelection.RemoveUniqueEntry` | src/pages/BookingPage.tsx:151 | with distinct ids, filtering out an entry's id removes just that entry, in place |
| `ServiceSelection.Toggled` | src/pages/BookingPage.tsx:148-155 | after a toggle the id is present exactly when it was absent before; entries with other ids are kept; an absent service is added |
| `ServiceSelection.ToggleAbsentAppends` | src/pages/BookingPage.tsx:153 | a service whose id is absent is appended at the end |
| `ServiceSelection.ToggleTwice` | src/pages/BookingPage.tsx:148-155 | toggling an absent service twice restores the original list exactly |
| `ServiceSelection.ToggledUnique` | src/pages/BookingPage.tsx:148-155 | toggling keeps ids distinct |
| `ServiceSelection.ClicksKeepIdsUnique` | src/pages/BookingPage.tsx:148-155 | every selection reached from the empty list by clicks has distinct ids |
| `ServiceSelection.ToggleOnTotal` | src/pages/BookingPage.tsx:148-171 | selecting an absent service adds exactly its cost to the services total |
| `ServiceSelection.ToggleOffTotal` | src/pages/BookingPage.tsx:148-171 | with distinct ids, deselecting a service subtracts exactly the cost of the entry it removes |
| `BookingFlow.Steps` | src/pages/BookingPage.tsx:80-85 | four steps with their labels; step i is completed exactly when i < 3 and the active step is past i, so the last step is never completed |
| `BookingFlow.NextStep` | src/pages/BookingPage.tsx:136-140 | Next adds one before the last step and does nothing from the last step on |
| `BookingFlow.BackStep` | src/pages/BookingPage.tsx:142-146 | Back subtracts one above the first step and does nothing at the first step |
| `BookingFlow.NextTimesClamped` | src/pages/BookingPage.tsx:136-140 | n presses of Next from a step in range reach min(s + n, 3) |
| `BookingFlow.BackTimesClamped` | src/pages/BookingPage.tsx:142-146 | n presses of Back from a step in range reach max(s − n, 0) |
| `BookingFlow.NextBackRoundTrip` | src/pages/BookingPage.tsx:136-146 | Back undoes a Next that moved, and Next undoes a Back that moved |
| `BookingFlow.TimeRange` | src/pages/BookingPage.tsx:191 | the record's time text is the start, " - ", then the end |
| `BookingFlow.TimeRangeOfClocks` | src/pages/BookingPage.tsx:191 | the time text of two clock times gives both times back |
| `BookingFlow.NewRecord` | src/pages/BookingPage.tsx:183-194 | the new record has the given id, the space, the captured date, time and amount, and status "upcoming" |
| `BookingFlow.Prepend` | src/pages/BookingPage.tsx:195-196 | the stored list grows by one, the new record first and the old records after it in their order |
| `BookingFlow.PrependFreshId` | src/pages/BookingPage.tsx:184-196 | a record with a fresh id keeps the stored ids distinct |
| `BookingFlow.MockBookingTotal` | src/pages/BookingPage.tsx:164-171 | with the page's mock data (rate 1200, 10:00–14:00, 50 guests, catering at 300) the hours are 4 and the total is 19800 |
| `BookingFlow.OnConfirm` | src/pages/BookingPage.tsx:173-175 | confirming opens the dialog in the processing state, where Cancel is not shown |
| `BookingFlow.OnProcessed` | src/pages/BookingPage.tsx:178-180 | the processing timer ends processing and confirms the booking; Cancel is not shown |
| `BookingFlow.OnExit` | src/pages/BookingPage.tsx:198-201 | the closing timer closes the dialog and changes nothing else |
| `BookingFlow.OnCancel` | src/pages/BookingPage.tsx:663-669 | Cancel closes the dialog only when the dialog is open and neither processing nor confirmed; otherwise nothing changes |
| `BookingFlow.TransitionsKeepDialogConsistent` | src/pages/BookingPage.tsx:173-203 | every dialog transition keeps an open dialog processing or confirmed |
| `BookingFlow.CancelNeverShownWhileOpen` | src/pages/BookingPage.tsx:663-669 | in every reachable state an open dialog hides Cancel, and Cancel is a no-op |
| `BookingFlow.ConfirmScenario` | src/pages/BookingPage.tsx:173-180 | confirm, then a cancel that does nothing, then the timer: the dialog ends open, not processing, confirmed |
| `BookingFlow.BookingWizard.constructor` | src/pages/BookingPage.tsx:62-78 | the page mounts on step 0 with the default form (50 guests), no services, a closed idle dialog, and the stored list as found |
| `BookingFlow.BookingWizard.HandleNext` | src/pages/BookingPage.tsx:136-140 | the active step becomes NextStep of the old one and stays within 0..3 |
| `BookingFlow.BookingWizard.HandleBack` | src/pages/BookingPage.tsx:142-146 | the active step becomes BackStep of the old one and stays within 0..3 |
| `BookingFlow.BookingWizard.ToggleService` | src/pages/BookingPage.tsx:148-155 | the selection becomes the toggled selection, and its ids stay distinct |
| `BookingFlow.BookingWizard.EditDetails` | src/pages/BookingPage.tsx:215-425 | an edit of the booking fields replaces the booking data |
| `BookingFlow.BookingWizard.HandleBookingConfirm` | src/pages/BookingPage.tsx:173-178 | from the last step, where the button is drawn (526-534), the dialog opens processing, and a callback is queued that captures the date, the "start - end" text and the current total |
| `BookingFlow.BookingWizard.ProcessingElapsed` | src/pages/BookingPage.tsx:178-197 | processing stops and the booking is confirmed; the store becomes the new "upcoming" record followed by the old list; the closing callback is scheduled |
| `BookingFlow.BookingWizard.ExitElapsed` | src/pages/BookingPage.tsx:198-201 | the dialog closes and the page leaves for the dashboard |
| `BookingFlow.BookingWizard.Cancel` | src/pages/BookingPage.tsx:663-669 | Cancel follows OnCancel, and from any reachable state it changes nothing |
| `Listing.IsStepValid` | src/pages/HostSpacePage.tsx:133-144 | every step other than 0, 1 and 3 is valid; a valid step 0 has a non-blank title and city; a valid step 3 has a non-blank image URL |
| `Listing.HasUsableImage` | src/pages/HostSpacePage.tsx:140 | `images.some(u => u.trim().length > 5)`: a usable URL has at least three characters once trimmed, and any URL with six trimmed characters is usable |
| `Listing.StepValidityTable` | src/pages/HostSpacePage.tsx:133-140 | step 0 needs trimmed title longer than 2 and trimmed city longer than 1; step 1 needs base price > 0; step 3 needs some trimmed image URL longer than 5; lengths in UTF-16 code units |
| `Listing.AstralCharactersCountTwice` | src/pages/HostSpacePage.tsx:136 | for any characters above U+FFFF (such as the emoji U+1F3E0), two of them are a long enough title and one a long enough city, since each counts two code units; one alone is too short a title |
| `Listing.UngatedSteps` | src/pages/HostSpacePage.tsx:141-142 | every other step index is valid |
| `Listing.BasicsIgnorePadding` | src/pages/HostSpacePage.tsx:135-136 | white space before and after the title and the city, chosen independently for each of the four ends, does not change step 0's validity |
| `Listing.BasicsExamples` | src/pages/HostSpacePage.tsx:135-136 | the title "Hi" is too short; "Hub" in "SF" passes, and so does "  Hub\n" |
| `Listing.InitialFormSteps` | src/pages/HostSpacePage.tsx:92-110 | the initial form passes step 1 (base price 2000) and fails step 3 (one empty image slot) and step 0 |
| `Listing.WithImage` | src/pages/HostSpacePage.tsx:123-129 | slot i becomes v; the length, every other slot and every other form field are unchanged |
| `Listing.WithImageField` | src/pages/HostSpacePage.tsx:131 | exactly one empty slot is appended; existing images and other fields are unchanged |
| `Listing.WithAmenity` | src/pages/HostSpacePage.tsx:119-121 | amenity k is set to b; other amenities and other fields are unchanged |
| `Listing.AmenityClickTwice` | src/pages/HostSpacePage.tsx:317-325 | clicking an amenity chip twice shows every amenity as before |
| `Listing.AddImageFieldKeepsMediaValidity` | src/pages/HostSpacePage.tsx:131-140 | adding an empty slot never changes step 3's validity |
| `Listing.UsableImageValidatesMedia` | src/pages/HostSpacePage.tsx:123-140 | writing a URL whose trimmed length is over 5 code units into any slot makes step 3 valid |
| `Listing.EditsKeepOtherSteps` | src/pages/HostSpacePage.tsx:119-144 | image edits affect only step 3's validity; amenity edits affect no step |
| `Listing.ListingNext` | src/pages/HostSpacePage.tsx:146 | Next gives min(s + 1, 5) |
| `Listing.ListingBack` | src/pages/HostSpacePage.tsx:147 | Back gives max(s − 1, 0) |
| `Listing.StepMovesStayInRange` | src/pages/HostSpacePage.tsx:146-147 | both moves keep the step within 0..5, Next never decreases it and Back never increases it |
| `Listing.Primary` | src/pages/HostSpacePage.tsx:485-493 | before the last step the button is Next, enabled exactly when the step is valid; on the last step it is Submit |
| `Listing.ClickPrimary` | src/pages/HostSpacePage.tsx:485-493 | a click moves the step only from a valid step before the last, and then by exactly one |
| `Listing.FirstBlocked` | src/pages/HostSpacePage.tsx:133-144 | the first step from s that blocks Next (or the last step); all steps before it are valid |
| `Listing.ClicksStopAtFirstBlocked` | src/pages/HostSpacePage.tsx:485-493 | n clicks from s on an unchanged form reach min(s + n, first blocking step), so the wizard is never past an invalid step |
| `Listing.ListingWizard.constructor` | src/pages/HostSpacePage.tsx:114-115 | the wizard starts on step 0 with the initial form |
| `Listing.ListingWizard.UpdateAmenity` | src/pages/HostSpacePage.tsx:119-121 | the form becomes WithAmenity of the old form |
| `Listing.ListingWizard.UpdateImage` | src/pages/HostSpacePage.tsx:123-129 | the form becomes WithImage of the old form |
| `Listing.ListingWizard.AddImageField` | src/pages/HostSpacePage.tsx:131 | the form becomes WithImageField of the old form |
| `Listing.ListingWizard.HandleNext` | src/pages/HostSpacePage.tsx:146 | the step becomes ListingNext of the old one and stays within 0..5 |
| `Listing.ListingWizard.HandleBack` | src/pages/HostSpacePage.tsx:147 | the step becomes ListingBack of the old one and stays within 0..5 |
| `Listing.ListingWizard.ClickNext` | src/pages/HostSpacePage.tsx:485-493 | a click moves the step only when the step it leaves is valid |
| `Dashboard.TiersStrictlyIncreasing` | src/pages/UserDashboard.tsx:147-152 | the thresholds are 0 < 1000 < 2000 < 5000, strictly increasing |
| `Dashboard.FindIndexFrom` | src/pages/UserDashboard.tsx:155 | `findIndex` returns the first position with the name, or −1 when no position has it |
| `Dashboard.TierIndex` | src/pages/UserDashboard.tsx:154-155 | the index is non-negative exactly when some tier has the name, and that tier carries it |
| `Dashboard.CurrentTier` | src/pages/UserDashboard.tsx:154 | the current tier is the tier with the member's name, chosen by name and not by points, or Bronze when none has the name |
| `Dashboard.NextTierAsWritten` | src/pages/UserDashboard.tsx:155 | the page's next tier is the tier at findIndex + 1: undefined for Platinum, and tiers[0] for an unknown name |
| `Dashboard.NextTierOfUnknownNameIsCurrent` | src/pages/UserDashboard.tsx:154-155 | for every name outside the table the page's next tier is the fallback current tier, Bronze, with no higher threshold |
| `Dashboard.DiamondIsUnknown` | src/pages/UserDashboard.tsx:147-152 | the name "Diamond" is not in the tier table |
| `Dashboard.NextTier` | src/pages/UserDashboard.tsx:155 | the corrected next tier is the tier with the lowest threshold above the current tier's, absent exactly at Platinum, and Silver for an unknown name |
| `Dashboard.NextTierAgreesOnKnownNames` | src/pages/UserDashboard.tsx:155 | for every name in the table the corrected next tier equals the page's |
| `Dashboard.PointsToNextTierAsWritten` | src/pages/UserDashboard.tsx:343-346 | the figure the page shows plus the member's points equals the threshold of the page's next tier; nothing is shown when that tier is undefined |
| `Dashboard.PointsToNextTier` | src/pages/UserDashboard.tsx:343-346 | the same figure over the corrected next tier |
| `Dashboard.UnknownNamePoints` | src/pages/UserDashboard.tsx:343-346 | for a name outside the table the page shows 0 − points (never positive for a member with points); the corrected figure is 1000 − points, towards Silver |
| `Dashboard.PointsAgreeOnKnownNames` | src/pages/UserDashboard.tsx:343-346 | for every name in the table the page's figure and the corrected one agree |
| `Dashboard.MockMemberProgress` | src/pages/UserDashboard.tsx:79-80 | the page shows the mock Gold member with 2450 points as 2550 points short of Platinum; Platinum has no next tier |
| `Dashboard.StatusColor` | src/pages/UserDashboard.tsx:170-181 | completed → success, upcoming → warning, cancelled → error, and each colour only for its status |
| `Dashboard.StatusIcon` | src/pages/UserDashboard.tsx:157-168 | each of the three known statuses has its own icon drawn in its chip's colour; every other status gets the uncoloured schedule icon |
| `Dashboard.ShowsAccessCode` | src/pages/UserDashboard.tsx:464-472 | the Access Code button appears exactly for bookings with the warning (upcoming) chip |
| `Dashboard.ShowsRating` | src/pages/UserDashboard.tsx:473-478 | the rating appears exactly for bookings with the success (completed) chip whose rating is present and non-zero |
| `Dashboard.ActionsByStatus` | src/pages/UserDashboard.tsx:464-478 | no booking shows both actions, and a cancelled or unknown status shows neither |

## Left out

- The presentational pages and components (home, search, space detail, layout,
  theme, animation, routing): they hold no business rules.
- The dashboard's tab index, and the progress-bar percentage (a floating-point
  display value).
- `Pricing.Hours`, `Pricing.Total`, `Pricing.TotalAddService`: the page
  computes hours as a millisecond difference divided by 3600000, then the
  rate times the hours plus the services, all in IEEE doubles
  (`BookingPage.tsx:161-170`). The model uses exact reals, so the rounding of
  doubles is not captured. For 10:00 to 10:11 at 1200 per hour the page gets
  0.18333333333333332 hours and shows and stores 219.99999999999997, where
  `Pricing.Total` gives exactly 220. For minute differences that are
  multiples of 15 the two agree. `TotalAddService`'s "adds exactly its cost"
  holds only in exact arithmetic: on a 62-minute slot with no services the
  page's total is 1240.0000000000002, and adding a 2000 flat-fee service moves
  it to 3240, a change of 1999.9999999999998.
- Browser date parsing beyond "HH:MM". The model accepts exactly two-digit
  hours 00–23 and minutes 00–59, which is what a time input produces; the
  leniency of the browser's parser on other strings is not modelled.
- `parseInt` and `Number` giving `NaN` for the guest count, the base price,
  the capacity and the surcharge. These are integers or exact reals here.
- Timer delays, `alert`, `navigate` to the space page or home page, and the
  listing's `handleSubmit`. Timers are caller-invoked methods. The exit to the
  dashboard is a flag. The rest is external I/O.
- The single-field `onChange` handlers of the listing form (title, type,
  description, address, city, capacity, prices, availability). Each is a plain
  field replacement and is not modelled one by one. The booking form's
  handlers are modelled together as `EditDetails`.
- The dashboard's booking list. It is the page's own hardcoded list of mock
  bookings, not the stored list the booking wizard writes, so nothing the
  wizard stores ever reaches the dashboard. The model keeps only the rules a
  listed booking is rendered by.
- React's rendering of a falsy rating `0` as the text "0". The model only
  says whether the rating block appears.
- The cross-tab race on the stored list, and what happens when the page is
  unmounted before a timer fires.
- `BookingFlow.BookingWizard.HandleBookingConfirm`, `HandleNext`,
  `HandleBack`, `ToggleService` and `EditDetails`: the model does not capture
  that the confirmation dialog is modal and blocks the page behind it. So it
  also allows these handlers to run while the dialog is open, including a
  second confirmation, which queues a second callback. The pending callback
  keeps the data captured at click time, so none of them changes the record
  it stores.

## Findings

| source | as written | input that shows it | evidently intended | confidence | as-written member | corrected member |
|---|---|---|---|---|---|---|
| src/pages/UserDashboard.tsx:154-155 | `nextTier = loyaltyTiers[findIndex(name) + 1]`, while `currentTier` falls back to Bronze | `user.loyaltyTier = "Diamond"` (any name not in the table) with 100 points: current tier Bronze, next tier also Bronze, "-100 points to Bronze" | the next tier after the fallback, Silver: "900 points to Silver" | medium; the mock user is always "Gold"; not executed | `Dashboard.NextTierAsWritten`, `Dashboard.NextTierOfUnknownNameIsCurrent`, `Dashboard.DiamondIsUnknown`, `Dashboard.PointsToNextTierAsWritten`, `Dashboard.UnknownNamePoints` | `Dashboard.NextTier`, `Dashboard.PointsToNextTier` |
