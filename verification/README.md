# Can I drive? — a Dafny model of the BAC calculator

This project models the part of the "can I drive" web calculator that decides
things. The calculator is a four-step wizard:

1. the user picks drinks from a catalogue;
2. the user sets the hours since drinking;
3. the user enters personal data;
4. the user reviews and calculates.

The calculation estimates the blood alcohol content (BAC) with the Widmark
formula. It then lists the countries whose legal driving limit is at or above
the estimate, highest limit first. The results screen bands the estimate into
colours and messages, draws a gauge, and shows "No limit!" for countries
without a limit.

The model has these modules:

- `Wrappers`: `Option`.
- `Seqs`: `findIndex`/`find` on sequences.
- `Drinks`: the drink catalogue, and the add / remove / change-quantity edits of
  the drink list.
- `Estimator`: the total alcohol, the guard, the Widmark arithmetic, elimination,
  the meal factor, the clamp and the rounding to thousandths.
- `Matcher`: the filter-then-stable-sort that picks the countries.
- `Wizard`: the step/progress machine, the form merge, and the calculation.
- `Display`: the banding, the gauge, the no-limit label and the countries panel's
  loading state.

Numbers are Dafny `real`s. `Math.round(x)` is `floor(x + 1/2)`, which rounds halves
up as JavaScript does. The country table is a parameter of the matcher, with
100 as the "no limit" sentinel.

## Model

| member | source | states |
|---|---|---|
| Seqs.FindIndex | components/drink-selector.tsx:188-190 | `findIndex`: -1 exactly when no element satisfies the predicate; otherwise the index of the first element that does |
| Seqs.Find | components/drink-selector.tsx:165-170 | `find`: None exactly when no element satisfies the predicate; otherwise the first element of the sequence that does |
| Drinks.Options | components/drink-selector.tsx:44-123 | each category's options are the ones the catalogue lists for it, and every ABV lies strictly between 0 and 100 |
| Drinks.ServingSizesPositive | components/drink-selector.tsx:20-42 | every serving volume is positive; the shared bottle is 750 / 4 = 187.5 ml |
| Drinks.FindCategory | components/drink-selector.tsx:165-166 | looking up the selected category always succeeds and yields that category's options, so the early return at line 166 is dead |
| Drinks.Lookup | components/drink-selector.tsx:167-172 | no pair exactly when the drink id matches no option or the size id matches no serving size; otherwise an option and a size from the tables carrying exactly those ids |
| Drinks.Resolve | components/drink-selector.tsx:163-185 | no entry exactly when the drink or size is unselected or either id fails to resolve in the category's tables; otherwise quantity 1, the selected category, id "<drink>-<size>", the option's ABV and the serving's volume |
| Drinks.MatchIndex | components/drink-selector.tsx:188-190 | the index of the first entry with the same id and category, -1 when there is none; in a list without duplicates it is the only such entry |
| Drinks.MergeOrAppend | components/drink-selector.tsx:187-197 | a matching entry gets quantity + 1 with length and every other entry unchanged; otherwise the new entry is appended after the untouched list; uniqueness and quantities >= 1 are kept |
| Drinks.AddDrink | components/drink-selector.tsx:163-200 | an incomplete or unresolvable selection leaves the list unchanged; a resolved one is merged or appended; the list invariant is kept |
| Drinks.SpliceOk | components/drink-selector.tsx:211-214 | cutting one entry out of a list without duplicates and with quantities >= 1 keeps both properties |
| Drinks.RemoveDrink | components/drink-selector.tsx:211-217 | the index filter removes exactly the entry at an in-range index and keeps the rest in order; an out-of-range index leaves the list unchanged; the list invariant is kept |
| Drinks.UpdateQuantity | components/drink-selector.tsx:219-227 | the entry at the index gets max(1, quantity + change); its other fields, the length and every other entry are unchanged; the list invariant is kept |
| Estimator.Contribution | app/calculator/page.tsx:65 | one list entry's alcohol, amount × ABV/100 × quantity: for a sane entry with quantity >= 1 it is positive and at least one serving's alcohol |
| Estimator.Guarded | app/calculator/page.tsx:73 | the guard `!weight \|\| !gender`: a missing, NaN or zero weight, or the empty gender |
| Estimator.TotalAlcohol | app/calculator/page.tsx:63-67 | the sum over the list of amount × ABV/100 × quantity: 0 for the empty list, non-negative for sane entries, positive for a non-empty sane list |
| Estimator.TotalAlcoholConcat | app/calculator/page.tsx:63-67 | the total over a concatenation is the sum of the totals |
| Estimator.SumAlcohol | app/calculator/page.tsx:63-67 | the `reduce` accumulating front to back from 0 computes the total |
| Estimator.BodyWater | app/calculator/page.tsx:82 | the constant is 0.68 exactly when the gender is "male", and 0.55 exactly when it is not |
| Estimator.MealFactor | app/calculator/page.tsx:94-98 | the factor is 0.7 exactly for "full", 0.9 exactly for "some", 1 exactly for any other status, and always in (0, 1] |
| Estimator.Round3 | app/calculator/page.tsx:104 | the result is a multiple of 0.001 within half a step of the input (halves up), and non-negative for a non-negative input |
| Estimator.Round3Unique | app/calculator/page.tsx:104 | the grid point within half a step of the input is unique, so the rounding is determined |
| Estimator.Round3Monotone | app/calculator/page.tsx:104 | rounding preserves order |
| Estimator.Widmark | app/calculator/page.tsx:69-101 | the clamped, unrounded Widmark estimate for a non-zero weight is never negative |
| Estimator.Estimate | app/calculator/page.tsx:63-104 | the estimate is >= 0 and on the 0.001 grid; it is 0 when the guard fires (missing, NaN or zero weight, or no gender); otherwise it is the clamped Widmark value rounded to the nearest 0.001 |
| Estimator.WidmarkMonotoneInAlcohol | app/calculator/page.tsx:85-101 | with positive weight, more alcohol never lowers the unrounded estimate |
| Estimator.EstimateMonotoneInAlcohol | app/calculator/page.tsx:63-104 | with every other field fixed and no negative weight, the estimate is non-decreasing in total alcohol |
| Estimator.WidmarkAntitoneInHours | app/calculator/page.tsx:91-101 | more elapsed hours never raise the unrounded estimate |
| Estimator.EstimateAntitoneInHours | app/calculator/page.tsx:85-104 | with every other field fixed, the estimate is non-increasing in the hours since drinking |
| Estimator.EmptyDrinksEstimateZero | app/calculator/page.tsx:63-104 | with nothing drunk and no negative elapsed time the estimate is 0 |
| Estimator.RemoveDrinkTotal | components/drink-selector.tsx:211-214 | removing an entry lowers the total by exactly that entry's alcohol |
| Estimator.ReplaceTotal | app/calculator/page.tsx:63-67 | replacing one entry changes the total by the difference of the two entries' alcohol |
| Estimator.ContributionOneMore | app/calculator/page.tsx:65 | one more serving of an entry adds exactly one serving's alcohol |
| Estimator.MergeOrAppendTotal | components/drink-selector.tsx:187-197 | adding a drink adds one serving of the matched entry, or the new entry's alcohol when it is appended |
| Estimator.UpdateQuantityTotal | components/drink-selector.tsx:219-224 | a quantity edit changes the total only through the edited entry |
| Estimator.ExampleOneBeer | app/calculator/page.tsx:63-104 | one 330 ml 5 % beer, male, 80 kg, 0 h, empty stomach gives 0.024 |
| Estimator.ExampleOneBeerFullMeal | app/calculator/page.tsx:94-95 | the same after a full meal gives 0.017 |
| Estimator.ExampleOneBeerTwoHours | app/calculator/page.tsx:91 | the same two hours later is clamped to 0 |
| Matcher.AtLeast | app/calculator/page.tsx:145 | the filter keeps exactly the entries with limit >= bac, each as often as it occurs in the table |
| Matcher.AtLeastWithLimit | app/calculator/page.tsx:145 | for each limit >= bac the filter keeps that limit's entries in table order; for lower limits it keeps none |
| Matcher.Insert | app/calculator/page.tsx:146 | inserting into a list sorted by descending limit keeps it sorted and adds exactly the new entry |
| Matcher.SortDesc | app/calculator/page.tsx:146 | the sort yields a permutation of its input ordered by limit, highest first |
| Matcher.InsertWithLimit | app/calculator/page.tsx:146 | an inserted entry goes ahead of the entries with its own limit |
| Matcher.SortDescWithLimit | app/calculator/page.tsx:146 | the sort is stable: entries with equal limits keep their table order |
| Matcher.StableSortUnique | app/calculator/page.tsx:146 | two lists sorted by descending limit with the same per-limit subsequences are equal, so every stable sort gives the same answer |
| Matcher.CountriesForBac | app/calculator/page.tsx:144-147 | the result holds exactly the table entries with limit >= bac, none dropped or added, sorted by limit highest first, ties in table order |
| Matcher.CountriesForBacCharacterized | app/calculator/page.tsx:144-147 | the matcher's result is the only list with that content and order |
| Matcher.ZeroBacKeepsTable | app/calculator/page.tsx:144-147 | at bac 0, a table without negative limits comes back whole, only stably sorted |
| Matcher.SentinelAlwaysMatches | app/calculator/page.tsx:144-147 | with a no-limit entry in the table, an estimate up to 100 matches at least one country, and the first shown has the top limit |
| Wizard.UpdateFormData | app/calculator/page.tsx:116-126 | a patch whose drink list equals the current one leaves the form unchanged; otherwise patched fields overwrite and unpatched fields are kept |
| Wizard.UpdateFormDataIdempotent | app/calculator/page.tsx:116-126 | applying the same patch twice equals applying it once |
| Wizard.UpdateWithSameDrinksIsDropped | app/calculator/page.tsx:118-123 | a patch carrying the current drinks loses its other fields: a gender and a weight in it are discarded |
| Wizard.Compute | app/calculator/page.tsx:63-109 | the result carries the estimate; when the guard fires the country list is empty; otherwise it is the matcher's list for the estimate |
| Wizard.Calculate | app/calculator/page.tsx:73-112 | both paths of the calculation end on step 5 with progress 100, with the form unchanged |
| Wizard.NextStep | app/calculator/page.tsx:128-135 | below step 4 it advances one step with progress 25 × step; from step 4 it calculates; the step invariant is kept |
| Wizard.PrevStep | app/calculator/page.tsx:137-142 | above step 1 it goes back one step with the form and results unchanged; otherwise nothing changes; the step never drops below 1 |
| Wizard.Step | app/calculator/page.tsx:116-142 | every user action keeps the step in 1..5 with progress 25 × min(step, 4), and keeps the drink list without duplicates and with quantities >= 1 |
| Wizard.RunKeepsInvariants | app/calculator/page.tsx:128-142 | any sequence of actions keeps both invariants |
| Wizard.ReachableStatesAreWellFormed | app/calculator/page.tsx:37-38 | from the initial state (step 1, progress 25, empty list) every reachable state satisfies both invariants |
| Display.BandOf | components/results.tsx:27-40 | exactly 0 is sober, other values below 0.05 are low, [0.05, 0.08) is moderate, and 0.08 or more is high; every real has exactly one band |
| Display.BandMonotone | components/results.tsx:27-40 | on non-negative values a larger BAC never gets a lower band |
| Display.NegativeBacIsLow | components/results.tsx:27-31 | below zero the banding is not monotone (-0.01 is low, 0 is sober) |
| Display.BacColor | components/results.tsx:27-32 | `getBACColor` returns the colour class of the BAC's band, one class per band |
| Display.BacMessage | components/results.tsx:34-40 | `getBACMessage` returns the message of the BAC's band, one message per band |
| Display.BarClass | components/results.tsx:70-78 | the gauge bar's inline conditional picks the class of the BAC's band, with the same thresholds as `getBACColor` |
| Display.PanelClass | components/results.tsx:82-91 | the message panel's inline conditional picks the class of the BAC's band, with the same thresholds as `getBACColor` |
| Display.TextClass | components/results.tsx:93-102 | the message text's inline conditional picks the class of the BAC's band, with the same thresholds as `getBACColor` |
| Display.BandStringsDistinct | components/results.tsx:27-102 | different bands never share a class or a message |
| Display.SelectionsAgree | components/results.tsx:27-102 | two BACs get the same colour, message, bar, panel or text class exactly when they are in the same band, so all five selections agree |
| Display.Gauge | components/results.tsx:69 | the gauge lies in [0, 100] for BAC >= 0, is 100 from 0.15 up, and is BAC / 0.15 × 100 below that |
| Display.GaugeMonotone | components/results.tsx:69 | the gauge never goes down as the BAC goes up |
| Display.LabelOf | components/results.tsx:132-139 | a country shows "No limit!" exactly when its limit is the sentinel 100, and its numeric limit otherwise |
| Display.TimerFires | components/results.tsx:15-25 | with a non-empty list the loading panel gives way to the list; with an empty list, or once loaded, nothing changes |
| Display.PanelLoading | components/results.tsx:114-121 | the spinner shows exactly while no timer event has happened or the list is empty; once it is gone the list is shown |
| Display.GuardedResultsStayLoading | components/results.tsx:17-25 | after a guarded calculation the countries panel stays loading forever |
| Display.UnguardedResultsLoad | components/results.tsx:17-21 | with a no-limit entry in the table, an unguarded estimate up to 100 leaves the loading state after one timer event |

## Left out

- Rendering: the JSX, the Tailwind markup, the animations and the randomly placed confetti have no behaviour to state. The class strings the result screen selects are kept.
- Timers: the 3 s calculation delay and the 2 s panel delay are not modelled. The calculation is one atomic step, and the panel transition is one event (`Display.TimerFires`).
- The `calculating` flag is not modelled. It only drives a spinner while the delayed calculation runs.
- The mascot message is not modelled; it is presentation. It depends on the step, and on step 5 also on whether the BAC is above 0. After a guarded calculation the estimate is 0, so the user reads "Good news! Your BAC is 0%. You're good to go!" whatever they drank.
- Floating point: arithmetic is over exact reals. IEEE-754 rounding and `toFixed` formatting are not modelled. The worked examples hold for exact arithmetic.
- The country table comes from lib/country_bac_limits, which is not part of this model. It is a parameter, with 100 as the no-limit sentinel. The matcher is a pure function, so it cannot change the table.
- Input components: the personal-info and time-selector screens are not modelled. They matter only as input domains:
  - weight becomes `Option<real>`, where None stands for an empty or non-numeric input (NaN);
  - the personal-info screen sends all five of its fields in one update (`Wizard.SetPersonal`);
  - height and age are stored but never used.
- Deep equality: the `JSON.stringify` comparison in `updateFormData` is structural equality on the drink list.
- Aliasing: `addDrink` and `updateQuantity` write through an object shared with the previous list, and the model does not follow this. They are modelled as pure updates that build a new list. With the aliasing, the new list of the merge path of `addDrink`, and of every `updateQuantity`, serialises like the stored list, so `updateFormData` drops the update. The stored list already shows the new quantity through the shared entry. The visible drink list is therefore the same either way.
- The drink selector keeps its own copy of the list next to the form's copy. The model keeps one list, the form's.
- Drinks.UpdateQuantity: requires an index inside the list. An out-of-range index would throw in the source, and the screen only offers indices of listed entries. `Wizard.Step` treats such an index as no action.
- Estimator.Widmark: requires a non-zero weight. The guard in `Estimator.Estimate` rules out a zero weight before the division.
- Estimator.EstimateMonotoneInAlcohol: does not cover negative weights. With a negative weight the raw estimate is negative and is clamped to 0.
- Estimator.EmptyDrinksEstimateZero: requires non-negative hours. The time slider only yields 0 to 24 hours, and negative hours would add alcohol instead of removing it.
