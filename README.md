# Skin consultant routine builder, modelled in Dafny

The application is a small knowledge-based recommender. A product catalog
(one row per product: name, skin type, concern, picture, link) is filtered
by the skin type and concern the user picks. A free-text allergy guard can
also drop every product whose name mentions the allergen. Each product is
then classified by keywords in its name into one of four routine steps:
Cleanse, Treat, Moisturize, Protect. A fixed morning / evening / night
schedule is filled with the first remaining product of each step, or with a
"no specific step found" placeholder. If no product survives the filters,
the single "no products match" error is shown instead.

The project has five modules:

- `Text` (`text.dfy`): ASCII lower-casing and Python's substring test, plain
  and case-insensitive.
- `Sequences` (`sequences.dfy`): the order-keeping filter a boolean row mask
  performs, and the subsequence relation it satisfies.
- `Classifier` (`classifier.dfy`): `get_step_type`. The keyword groups are
  tried in order and Treat is the default. Its contract says the result is
  the step of the first group that fires.
- `Routine` (`routine.dfy`): the selector. `Recommend` is the specification
  as functions. Next to it, the code under the button is modelled as
  methods over lists of row labels (`SelectProfile`, `DropAllergen`,
  `SelectCandidates`, `ClassifyAll`, `ScanFor`, `FindFirst`, `FillPhase`).
  `BuildRoutine` is proved to compute exactly `Recommend`.
- `Scenarios` (`scenarios.dfy`): worked examples on sample product names
  and two small catalogs.

A filtered table is modelled as the list of its surviving row labels. The
step column is computed over the whole catalog, as the code assigns it to
`df` and not to the filtered table. The lookup `filtered[df['Step'] == step]`
aligns the two on the row label. With the default row labels that
`read_csv` assigns, this means "the step of the same row", and the model
states it that way.

## Model

| member | source | states |
|---|---|---|
| Text.Lower | app.py:28 | The lower-cased name has the same length. Each character is the ASCII lower-case of the original, and no upper-case letter is left. |
| Text.Contains | app.py:29-32 | Python's `x in name`. The empty string occurs in every string and a string occurs in itself. Nothing longer than the text occurs in it. |
| Text.ContainsIgnoreCase | app.py:51-52 | `str.contains(term, case=False)` on one present cell. The empty term matches every text, and a term equal to the text up to case matches it. A match is never longer than the text. Its case-insensitivity is stated by `ContainsIgnoreCaseRespectsCase`. |
| Text.LowerIdempotent | app.py:28 | Lower-casing an already lower-cased name changes nothing. |
| Text.ContainsIgnoreCaseRespectsCase | app.py:51-52 | Case-insensitive containment gives the same answer for texts and terms that differ only in letter case. |
| Sequences.Filter | app.py:50-53 | A row mask never yields more rows than it was given. Every row it keeps is an input row that the mask accepts. |
| Sequences.FilterMembership | app.py:50-53 | A row is in the filtered table exactly when it is in the input and the mask accepts it. |
| Sequences.FilterIsSubsequence | app.py:50-53 | Filtering keeps the rows in their original order: the result is a subsequence of the input. |
| Classifier.AnyIn | app.py:29-32 | `any(x in name for x in words)` is true exactly when some word of the group occurs in the name. |
| Classifier.GetStepType | app.py:27-33 | The step is the one of the first keyword group, in the order cleanse, treat, moisturize, protect, that occurs in the lower-cased name. When no group occurs, the step is Treat. |
| Classifier.CleanseKeywordWins | app.py:29 | A name containing a cleansing keyword is Cleanse, whatever else it contains. |
| Classifier.TreatKeywordBeatsLaterGroups | app.py:30 | Without a cleansing keyword, a treatment keyword gives Treat, even next to moisturizing or sun-protection keywords. |
| Classifier.MoisturizeKeywordBeatsProtect | app.py:31-32 | Without cleansing or treatment keywords, a moisturizing keyword gives Moisturize, even next to a sun-protection keyword. |
| Classifier.UnmatchedNameIsTreat | app.py:33 | A name with no keyword of any group is Treat. |
| Classifier.ClassifyIgnoresCase | app.py:28 | Names that differ only in letter case get the same step. |
| Classifier.ClassifyLowerCaseName | app.py:28 | Classifying the lower-cased name gives the same step as classifying the name. |
| Routine.FirstOfStep | app.py:74-77 | A found product is a candidate of the requested step. Nothing is found only when no candidate has that step. |
| Routine.FieldContains | app.py:51-52 | One cell of the profile test. A missing cell never matches (`na=False`). A present cell matches the empty term and any term equal to it up to case. |
| Routine.FitsProfile | app.py:51-52 | Both filters hold. Only a row with both a skin type and a concern can fit. A row whose cells equal the chosen values up to case always fits. |
| Routine.FreeOf | app.py:57 | The allergy guard's mask for one row. It never holds for an empty allergy text, because the empty text occurs in every name. A name always mentions itself. An allergy text longer than the name is never mentioned. |
| Routine.ProfileMatches | app.py:50-53 | The profile mask `df[skin & concern]`: never more rows than given, and every kept row is a given row that fits the profile. The converse is `ProfileMatchesMembership`. |
| Routine.ProfileMatchesMembership | app.py:50-53 | A row survives the profile mask exactly when it is a given row whose skin type and concern contain the chosen ones ignoring case. |
| Routine.WithoutAllergen | app.py:57 | The allergy guard `filtered[~mask]`: never more rows than given, and every kept row is a given row whose name does not mention the allergy text. The converse is `WithoutAllergenMembership`. |
| Routine.WithoutAllergenMembership | app.py:57 | A row survives the allergy guard exactly when it is a given row whose name does not contain the allergy text ignoring case. |
| Routine.Candidates | app.py:50-57 | The rows left after both filters. Never more than the catalog has, and each one is a catalog row that fits the profile and, for a non-empty allergy text, is free of it. The converse is `CandidateMembership`. |
| Routine.PhaseSlots | app.py:72-77 | One phase's slots: one per step, in the phase's order, each holding the first candidate of its step. |
| Routine.ScheduleSlots | app.py:69-77 | A schedule's slots, phase after phase: exactly one per step of the schedule. `ScheduleSlotsFaithful` states their contents. |
| Routine.ScheduleOrder | app.py:63-67 | The `Schedule` constant: morning, evening and night, in that order. Every phase opens with Cleanse, Protect appears only in the morning, and there are eight steps in all. |
| Routine.Recommend | app.py:48-91 | What the button shows. It is the no-match error exactly when no candidate is left. Otherwise it is eight slots, each holding the first candidate of its own step or the placeholder. `RecommendShape` writes the eight slots out; `SlotContents` states when a slot is the placeholder. |
| Routine.FirstOfStepAt | app.py:74-77 | When row j is the first row of a step, the lookup returns row j. |
| Routine.FirstOfStepIsFirst | app.py:74-77 | A found product sits at a position with no earlier row of the same step (`.iloc[0]`). |
| Routine.CandidateMembership | app.py:50-57 | A product is a candidate exactly when it is in the catalog, both its skin type and concern contain the chosen ones ignoring case, and, for a non-empty allergy text, its name does not contain the allergy text. A missing skin type or concern never matches (`na=False`). |
| Routine.ProfileIgnoresCase | app.py:51-52 | The profile test does not depend on the letter case of the chosen skin type or concern. |
| Routine.CandidatesKeepOrder | app.py:50-57 | The candidates keep catalog order. With an allergy text they are a subsequence of the candidates without one, so never more of them. |
| Routine.UnusedAllergenChangesNothing | app.py:56-57 | An allergy text that no matching product name contains leaves the candidates unchanged. |
| Routine.ScheduleSlotsUnfold | app.py:63-77 | The schedule's slots, written out: morning cleanse, treat, protect; evening cleanse, treat, moisturize; night cleanse, moisturize; each with the first candidate of its step. |
| Routine.RecommendShape | app.py:59-91 | The outcome is the no-match error exactly when no candidate is left. Otherwise it is always the eight slots in display order. |
| Routine.ScheduleSlotsFaithful | app.py:69-77 | Every slot of any schedule holds the first candidate of its own step. |
| Routine.SlotContents | app.py:72-89 | A slot shows the placeholder exactly when no candidate has its step. Otherwise it shows the first candidate, in row order, that has it. |
| Routine.SelectProfile | app.py:50-53 | The loop returns strictly increasing row labels. The rows at those labels are exactly the profile matches, in catalog order. |
| Routine.DropAllergen | app.py:56-57 | The kept labels are exactly the given labels, in order, whose rows' names do not contain the allergy text, so they are a subsequence of the given labels. The rows at them are the allergen-free given rows. |
| Routine.FreeLabels | app.py:57 | The allergy guard applied to row labels: never more labels than given, and every kept label is a given label of a catalog row whose name does not mention the allergy text. The converse is `FreeLabelsMembership`. |
| Routine.FreeLabelsMembership | app.py:57 | A label is kept exactly when it is a given label of a catalog row whose name does not contain the allergy text ignoring case. |
| Routine.SelectProfileStep | app.py:50-53 | One row of the profile loop: row i's label is appended exactly when the row fits, and the rows at the labels stay the profile matches of the rows seen so far. |
| Routine.FreeLabelsRows | app.py:56-57 | Selecting labels by the allergy mask and then reading their rows gives the same rows as reading the rows and then applying the mask. |
| Routine.SelectCandidates | app.py:50-57 | The profile filter and, for a non-empty allergy text, the allergy guard yield strictly increasing labels whose rows are exactly the candidates. |
| Routine.ClassifyAll | app.py:60 | The step column has one entry per catalog row, and each entry is that row's classified step. |
| Routine.ScanFor | app.py:74-76 | The scan stops at the first label whose step entry is the requested step, or at the end when there is none. |
| Routine.FindFirst | app.py:74-77 | The product picked for a step is the specification's first candidate of that step. |
| Routine.FillPhase | app.py:72-89 | One phase's slots are the specification's slots for that phase. |
| Routine.BuildRoutine | app.py:48-91 | The code under the button yields exactly `Recommend`: the no-match error or the filled schedule. |
| Scenarios.FoamingWashIsCleanse | app.py:29 | "Foaming Wash" is Cleanse. |
| Scenarios.MoisturizerGelIsTreat | app.py:29-30 | "moisturizer gel" is Treat: the treatment group is tried before the moisturizing one. |
| Scenarios.SunscreenOilIsTreat | app.py:29-30 | "sunscreen oil" is Treat, not Protect. |
| Scenarios.VitaminBoosterIsTreat | app.py:29-33 | "Vitamin C Booster" has no keyword and falls back to Treat. |
| Scenarios.NiacinamideSerumIsTreat | app.py:29-30 | "Niacinamide Serum" is Treat. |
| Scenarios.HydraCreamIsMoisturize | app.py:29-31 | "Hydra Cream" is Moisturize. |
| Scenarios.NightLotionIsMoisturize | app.py:29-31 | "Night Lotion" is Moisturize, although "oil" nearly occurs in it. |
| Scenarios.WashHasAllergen | app.py:57 | The allergy text "Wash" matches "Foaming Wash" ignoring case. |
| Scenarios.SerumFreeOfAllergen | app.py:57 | The allergy text "Wash" does not match "Niacinamide Serum". |
| Scenarios.OilyCatalogWithoutWash | app.py:50-57 | For oily, acne-prone skin with allergy text "Wash", only the serum remains. |
| Scenarios.OilyAcneRoutine | app.py:48-89 | Without an allergy text, the wash fills every Cleanse slot and the serum every Treat slot. Protect and Moisturize show the placeholder. |
| Scenarios.WashAllergenEmptiesCleanse | app.py:56-89 | With allergy text "Wash", every Cleanse slot becomes the placeholder and the serum still fills Treat. |
| Scenarios.DrySkinNoMatch | app.py:50-59 | No product suits dry skin in the oily catalog, so the outcome is the no-match error. |
| Scenarios.HydraCreamComesFirst | app.py:74-77 | Of two moisturizers, the earlier row is the one picked. |
| Scenarios.EarlierMoisturizerWins | app.py:72-77 | The evening and night Moisturize slots both show the earlier moisturizer. |

## Left out

- The Streamlit page is not modelled: configuration, styling, title, input widgets, headers, images, captions, link buttons and dividers (app.py:1-15, 36-46, 70, 78-87, 93). The inputs are parameters, and each displayed slot becomes a `Slot` value.
- `load_data` and its CSV reading, column-name stripping and caching (app.py:17-24) are not modelled. The catalog is a parameter.
- `str.contains` treats its argument as a regular expression by default. The model uses a literal substring test. The skin type and concern come from fixed lists without regular-expression metacharacters, so for them the two agree. A free-text allergy text containing metacharacters (or an invalid pattern, which raises) is not modelled.
- Product names are always strings. A missing (NaN) product name, on which `get_step_type` would raise and which the allergy guard would keep, is not modelled. Missing skin types and concerns are modelled with `Option`, where a missing cell never matches.
- `lower()` is modelled for ASCII letters only. Unicode case mapping is not modelled.
- The row-label alignment in `filtered[df['Step'] == step_name]` is modelled for the default labels `read_csv` assigns, where it selects by "the step of the same row". Custom or duplicate labels are not modelled.
- The picture and link fields are carried in `Product` but only displayed, so no property is stated about them.
- Rendering order and placeholder messages are modelled by the order of `Slot` values. The exact message texts are not modelled.
- The schedule always has eight slots whenever a candidate is left. Placeholders fill steps without a product. The model follows the code here, not a reading where a phase would only list the steps it found.
- A skin-type or concern column in which no cell is present is read by `read_csv` as a non-string column, and `.str.contains` on it (app.py:51-52) raises instead of filtering. The model treats every such cell as not matching, so `Recommend` gives the no-match error for that catalog.
