# Solar calculator widget: a Dafny model

This project models the core of the solarrechner widget. It has three parts.

- **Savings estimator** (`calculateSavings`). It maps the answer record to annual savings, system size, annual production and CO₂ offset. It uses three fixed lookup tables and fixed tariff constants.
- **Questionnaire stepper**. The state is `currentStep` and the `formData` record. The handlers are `handleOptionSelect`, `handleInputChange`, `handleSubmit`, `goBack` and `restart`, and `currentStep == steps.length` shows the result view.
- **Iframe height reporter** (`IframeResizer`). It posts `{ type: 'resize-calculator', height }` to the embedding page when the document height changes. Window resizes and DOM mutations are debounced through one shared `resizeTimeout` slot.

There are two copies of the calculator component: `src/components/SolarCalculator.tsx` (the `Widget` variant) and `src/SolarCalculator.tsx` (the `Embed` variant, rendered by the `/embed` page). They share the step configuration, the estimator and the handlers. They differ in the advance delay, the progress-bar formula, and the selected-option highlight, which only `Embed` draws. One shared model covers both copies.

Files:

- `questionnaire.dfy`, module `Questionnaire`: `FormData`, the `Steps` configuration, and the handlers as pure transitions on a `Session` value.
- `wrappers.dfy`, module `Wrappers`: the `Option` type shared by the stepper and the resizer.
- `estimator.dfy`, module `Estimator`: `calculateSavings` over exact `real`s, with `Math.round` as `Floor(x + 0.5)`. The lemmas show that no rounding tie can arise, so the exact values are the intended ones.
- `stepper.dfy`, module `Stepper`: the class `Calculator`, whose fields are `currentStep` and `formData`. Each handler is a method, and its new state is the matching `Questionnaire` transition applied to the old state. This module also holds the progress and highlight functions of the two variants.
- `iframe_resize.dfy`, module `IframeResize`: the class `IframeResizer`. The browser's timer table, the registered listeners, the connected observers and the posted messages are explicit fields. The measured height is a method parameter, and so is whether the parent accepts a message.

Behaviour of the code worth knowing:

- Window resizes and DOM mutations share one `resizeTimeout` slot (`src/utils/iframeResize.ts:83-89`, `:99-105`), so each cancels the other's pending report.
- The doc comment of `destroy` reads "Clean up event listeners and observers" (`src/utils/iframeResize.ts:118`). But `removeEventListener` at `:121` receives a new `.bind(this)` function, not the one added at `:49`, so the resize listener stays registered. `DestroyKeepsResizeListener` shows that a resize after `destroy` still arms a timer.
- `restart` always returns to question 0, and there is no intro state.
- A successful `handleSubmit` only logs the lead to the console and shows an alert. Nothing is sent anywhere.

## Model

| member | source | states |
|---|---|---|
| `Questionnaire.FormData.Set` | src/components/SolarCalculator.tsx:144-147 | `{ ...prev, [key]: value }` writes the one key and leaves the other seven fields unchanged |
| `Questionnaire.EmptyForm` | src/components/SolarCalculator.tsx:35-44 | the initial answer record has all eight fields `''` |
| `Questionnaire.StepsConfiguration` | src/components/SolarCalculator.tsx:46-96 | there are 5 questions with pairwise distinct keys, none of them a contact field, and no option token is `''` |
| `Questionnaire.InResultView` | src/components/SolarCalculator.tsx:206 | the result view is shown only past the fifth question; in a valid session, exactly when no question index is left (also src/SolarCalculator.tsx:185) |
| `Questionnaire.Initial` | src/components/SolarCalculator.tsx:34-44 | the session starts on question 0, not in the result view, with every field empty and the state valid |
| `Questionnaire.Select` | src/components/SolarCalculator.tsx:143-156 | the field `steps[currentStep].key` gets the value, every other field is kept, and the cursor advances by exactly 1. After the last question this is the result view. Validity is kept when the value is one of the offered tokens |
| `Questionnaire.Back` | src/components/SolarCalculator.tsx:186-190 | the cursor goes back by one when it is above 0 and nothing changes at 0; the form is never changed; a valid state stays valid and leaves the result view |
| `Questionnaire.Restart` | src/components/SolarCalculator.tsx:192-204 | from any state, the cursor is 0 and all eight fields are `''` |
| `Questionnaire.Input` | src/components/SolarCalculator.tsx:158-164 | a name, email or phone input writes only its own field, leaves the cursor alone and keeps validity |
| `Questionnaire.Submit` | src/components/SolarCalculator.tsx:166-171 | submission is rejected exactly when `name` or `email` is empty; `phone` is not required; an accepted lead is the form as it stands |
| `Questionnaire.AnswerAllAdvances` | src/components/SolarCalculator.tsx:143-156 | k answers move the cursor exactly k steps, and the i-th answer ends up under the key of question `step + i` |
| `Questionnaire.AnswerAllKeepsUnwritten` | src/components/SolarCalculator.tsx:143-147 | answers never change a field that none of the answered questions writes |
| `Questionnaire.AnswerEveryQuestion` | src/SolarCalculator.tsx:140-185 | from step 0, five answers reach step `steps.length` (the result view) and the form holds all five answers |
| `Questionnaire.AnswerAllStaysValid` | src/SolarCalculator.tsx:140-152 | answering with offered tokens keeps the cursor at or below `steps.length` and every question field at `''` or one of its tokens |
| `Questionnaire.BackThenSelect` | src/SolarCalculator.tsx:140-175 | on a question step, where the back button is shown, going back and answering again returns to the same step and rewrites only that question's key |
| `Questionnaire.RestartForgets` | src/SolarCalculator.tsx:177-183 | restart gives the initial session from every state and is idempotent |
| `Estimator.Round` | src/components/SolarCalculator.tsx:136-139 | `Math.round` returns the integer n with n − 0.5 ≤ x < n + 0.5 |
| `Estimator.RoofAreaBase` | src/components/SolarCalculator.tsx:101-107 | the base is positive exactly for the four roof-area tokens and 0 for anything else, `''` included; it is always a multiple of 5 |
| `Estimator.ResidentsFactor` | src/components/SolarCalculator.tsx:109-115 | an unknown or empty token gives factor 1; every factor is 0.8, 1.0 or 1.2 |
| `Estimator.BillFactor` | src/components/SolarCalculator.tsx:117-124 | an unknown or empty token gives factor 1; every factor is 0.8, 1.0, 1.3 or 1.6 |
| `Estimator.ExactProduction` | src/components/SolarCalculator.tsx:126 | the unrounded production is never negative, and it is 0 exactly when no roof-area bracket was chosen |
| `Estimator.SavingsFormula` | src/components/SolarCalculator.tsx:127-133 | self-consumption at 0.3 × 0.32 × bill factor plus export at 0.7 × 0.08 is the production times (0.096 × bill factor + 0.056), and it is non-negative |
| `Estimator.ExactSavings` | src/components/SolarCalculator.tsx:126-133 | the unrounded savings are never negative, and they are 0 exactly when no roof-area bracket was chosen |
| `Estimator.CalculateSavings` | src/components/SolarCalculator.tsx:98-141 | systemSize is the roof-area base; annualProduction equals the unrounded production; co2Reduction is exactly 0.4 kg per kWh of it; annualSavings are within 0.4 of the unrounded value. The logic is the same in src/SolarCalculator.tsx:99-138 |
| `Estimator.RoofAreaTable` | src/SolarCalculator.tsx:100-106 | the roof-area brackets, in display order, give 5, 10, 15 and 25 kWp |
| `Estimator.FactorTables` | src/SolarCalculator.tsx:108-121 | the residents brackets give 0.8/1.0/1.2 and the bill brackets give 0.8/1.0/1.3/1.6, in display order |
| `Estimator.ProductionIsWholeThousands` | src/components/SolarCalculator.tsx:126 | for every answer record, the unrounded production is a whole multiple of 1000 kWh |
| `Estimator.ProductionIsExact` | src/components/SolarCalculator.tsx:126-138 | `Math.round` leaves the production unchanged: it equals base × 1000 × residents factor exactly and is a multiple of 1000 |
| `Estimator.Co2IsExact` | src/components/SolarCalculator.tsx:139 | rounding 0.4 × production gives exactly 0.4 × the rounded production |
| `Estimator.SavingsInFifths` | src/components/SolarCalculator.tsx:127-133 | five times the unrounded savings is an integer, so the fractional part is a multiple of 0.2 |
| `Estimator.SavingsRoundingHasNoTie` | src/components/SolarCalculator.tsx:131-136 | rounding moves the unrounded savings by at most 0.4, so `Math.round` never meets a .5 tie |
| `Estimator.UnknownRoofAreaGivesZero` | src/components/SolarCalculator.tsx:99-140 | an empty or unknown roof area gives savings, size, production and CO₂ all 0, whatever the other answers are |
| `Estimator.SystemSizeIsRoofBase` | src/components/SolarCalculator.tsx:134-137 | systemSize is the roof-area base alone, and it is positive exactly when a roof-area bracket was chosen |
| `Estimator.OnlyThreeAnswersMatter` | src/SolarCalculator.tsx:99-138 | two records that agree on roofArea, residents and currentBill get the same estimate, whatever installation, roofType and the contact fields hold |
| `Estimator.LargestRoofExample` | src/components/SolarCalculator.tsx:126-139 | `sehr-gross`/`3-4`/`sehr-hoch` gives 5240 EUR, 25 kWp, 25000 kWh and 10000 kg |
| `Estimator.SavingsFollowProduction` | src/components/SolarCalculator.tsx:126-138 | with the same bill bracket, a larger production never gives a smaller rounded production or smaller rounded savings |
| `Estimator.SavingsMonotoneInBill` | src/components/SolarCalculator.tsx:117-136 | a later (higher) bill bracket never gives lower savings |
| `Estimator.SavingsMonotoneInRoofArea` | src/components/SolarCalculator.tsx:101-138 | a larger roof bracket never gives lower production or savings |
| `Estimator.SavingsMonotoneInResidents` | src/components/SolarCalculator.tsx:109-138 | a larger household bracket never gives lower production or savings |
| `Stepper.ProgressWidth` | src/components/SolarCalculator.tsx:312 | on every question step the bar width lies in [0, 100]; the Embed bar of src/SolarCalculator.tsx:253 lies strictly inside (0, 100) |
| `Stepper.IsSelected` | src/SolarCalculator.tsx:235 | an unanswered question highlights none of its options; with a well-formed record, only an offered token (or '') can be highlighted |
| `Stepper.WidgetProgress` | src/components/SolarCalculator.tsx:312 | the Widget bar is 25% × step: 0 exactly on the first question, 100 exactly on the last, and never outside [0, 100] |
| `Stepper.EmbedProgress` | src/SolarCalculator.tsx:253 | on every question step, the Embed bar width (s+1)/(steps.length+1)·100 lies strictly between 0 and 100 |
| `Stepper.ProgressMonotone` | src/SolarCalculator.tsx:253 | in both variants, the bar strictly grows from one question to the next |
| `Stepper.NothingSelectedAfterRestart` | src/SolarCalculator.tsx:177-183 | after restart no option is highlighted, because no token is `''` |
| `Stepper.NothingSelectedBeforeAnswer` | src/SolarCalculator.tsx:235 | going through the questions from the start, an option of the current question is highlighted only once it has been picked |
| `Stepper.SelectThenBackHighlights` | src/SolarCalculator.tsx:235 | answering a question other than the last and pressing back on the next one highlights the option just picked |
| `Stepper.Calculator.constructor` | src/components/SolarCalculator.tsx:34-44 | a new component starts in the initial session |
| `Stepper.Calculator.ShowsResult` | src/components/SolarCalculator.tsx:206 | the result view is shown exactly when `currentStep == steps.length` |
| `Stepper.Calculator.Estimate` | src/components/SolarCalculator.tsx:206-207 | an estimate exists exactly in the result view, and it is `calculateSavings` of the current form |
| `Stepper.Calculator.OptionHighlighted` | src/SolarCalculator.tsx:235 | a button is highlighted exactly when the variant is Embed and the current question's field holds that option's token |
| `Stepper.Calculator.HandleOptionSelect` | src/components/SolarCalculator.tsx:143-156 | the new state is `Select` of the old one, and validity is kept |
| `Stepper.Calculator.HandleInputChange` | src/components/SolarCalculator.tsx:158-164 | the new state is `Input` of the old one, and validity is kept |
| `Stepper.Calculator.GoBack` | src/components/SolarCalculator.tsx:186-190 | the new state is `Back` of the old one |
| `Stepper.Calculator.Restart` | src/components/SolarCalculator.tsx:192-204 | the new state is `Restart` of the old one |
| `Stepper.Calculator.HandleSubmit` | src/components/SolarCalculator.tsx:166-184 | the submission is rejected exactly when name or email is empty, and neither step nor form changes |
| `Stepper.FullSession` | src/components/SolarCalculator.tsx:143-206 | from a new component, four answers and the back button of the fifth question land on question 4 (step 3), with the earlier answer highlighted only in Embed; answering it again and then the last question gives the result view with the estimate for the five answers; restart returns to 0 |
| `IframeResize.IframeResizer.constructor` | src/utils/iframeResize.ts:26-29 | a new resizer has lastHeight 0, no observer, no timeout, nothing registered and no posts |
| `IframeResize.IframeResizer.Init` | src/utils/iframeResize.ts:34-53 | in a top-level window, nothing is armed, registered or created. In a frame, a 100 ms settle timer is armed outside `resizeTimeout`, one resize listener is added and an observer is connected |
| `IframeResize.IframeResizer.SendHeight` | src/utils/iframeResize.ts:58-77 | a message is posted iff the height differs from lastHeight, with type `resize-calculator` and that height; afterwards lastHeight equals the height in both cases, even when the parent refuses the post |
| `IframeResize.IframeResizer.ArmDebounce` | src/utils/iframeResize.ts:83-89 | the stored timer is cancelled before the new one is armed and stored, so exactly one debounce timer is pending |
| `IframeResize.IframeResizer.HandleResize` | src/utils/iframeResize.ts:82-90 | the shared slot is re-armed with 150 ms and the previous pending timer is cancelled |
| `IframeResize.IframeResizer.OnMutation` | src/utils/iframeResize.ts:97-106 | the shared slot is re-armed with 50 ms and the previous pending timer is cancelled |
| `IframeResize.IframeResizer.SetupMutationObserver` | src/utils/iframeResize.ts:95-115 | the observer field is set and one more observer is connected; an earlier one is not disconnected |
| `IframeResize.IframeResizer.Destroy` | src/utils/iframeResize.ts:120-132 | afterwards observer and resizeTimeout are null and no debounce is pending; the resize listener stays; a second call changes nothing |
| `IframeResize.IframeResizer.WindowResized` | src/utils/iframeResize.ts:49 | a resize event runs handleResize when a listener is registered, and does nothing otherwise |
| `IframeResize.IframeResizer.ContentMutated` | src/utils/iframeResize.ts:97-114 | a mutation runs the observer callback while an observer is connected, and does nothing otherwise |
| `IframeResize.IframeResizer.FireTimer` | src/utils/iframeResize.ts:87-89 | a pending timer is removed and calls sendHeight; a cancelled or unknown handle does nothing; resizeTimeout keeps the stale handle |
| `IframeResize.AtMostOnePendingDebounce` | src/utils/iframeResize.ts:82-106 | at most one debounced send is ever pending, and it is the one whose handle `resizeTimeout` holds |
| `IframeResize.PostsAreChanges` | src/utils/iframeResize.ts:58-77 | every attempted post carries the type tag; the first carries a non-zero height and each later one a height different from the one before it |
| `IframeResize.TopLevelInitIsInert` | src/utils/iframeResize.ts:34-39 | after a top-level init there are no timers, no listeners and no observer, and later events send nothing |
| `IframeResize.BurstSendsOnce` | src/utils/iframeResize.ts:97-106 | a burst of two mutations and one resize leaves one pending send and produces one message; a cancelled handle sends nothing |
| `IframeResize.SameHeightTwice` | src/utils/iframeResize.ts:58-63 | two reports of the same height post once (not at all for 0, the initial lastHeight), and the second report is a no-op |
| `IframeResize.FailedPostCountsAsReported` | src/utils/iframeResize.ts:62-75 | a refused post is swallowed, and the same height is not posted again |
| `IframeResize.DestroyKeepsResizeListener` | src/utils/iframeResize.ts:120-132 | after two destroys, observer and timeout are gone and mutations arm nothing, but a window resize still arms a timer |

## Left out

- Rendering is not modelled: JSX, CSS classes, titles, labels, icons, the "step n of 5" text and `toLocaleString` formatting.
- `alert` and `console.log` are left out. `handleSubmit` is modelled by the outcome it reports.
- The setTimeout before the advance in `handleOptionSelect` (300 ms in the Widget copy, 200 ms in the Embed copy) is not modelled. The model takes the value write and the advance as one atomic step. It does not capture the stale `currentStep` closure, nor a second click during the delay.
- `Stepper.Calculator.HandleOptionSelect` requires a question step and an offered token. Option buttons exist only in the question view and pass their own token. At `currentStep == steps.length` the code would fail on `steps[currentStep].key`.
- `Stepper.Calculator.HandleInputChange` covers only the name, email and phone inputs, which are the only inputs the component renders.
- Floating point is not modelled: IEEE-754 doubles are replaced by exact reals. The lemmas show the tables produce no rounding ties.
- DOM measurement (`scrollHeight`) is a parameter. So is the outcome of `postMessage` (accepted or throwing), and its `'*'` target origin is not modelled.
- The MutationObserver's observation options (`childList`, `subtree`, the attribute filter) are not modelled. A mutation is an explicit method call.
- A DOM mutation seen by several connected observers (after a second `init`) is modelled as one callback run. Each further run would only cancel and re-arm the same slot, so only the handle numbers differ.
- A resize event reaching several registered listeners is modelled as one `handleResize` call. Each further call would only cancel and re-arm the same slot.
- Timer delays are recorded but do not order firing: the model lets any pending timer fire.
- The lead-submission backend, the dashboard and authentication pages, routing and bootstrapping are outside this model. That covers `supabase/functions/submit-lead/index.ts`, `src/pages/*`, `src/App.tsx` and `src/main.tsx`.
