# Data Reuse Navigator — wizard state machine in Dafny

The Data Reuse Navigator is a single-page questionnaire. It walks a researcher
through five steps:

- three yes/no checklists ("Reuse Eligibility", "Strategic Fit", "Readiness");
- a multi-select checklist ("Reuse Pathway");
- a free-text "Action Planner".

While a step is open, a readiness score is shown for it. Forward navigation is
gated on completeness. After the last step, a read-only summary is shown.

This project models the logic of that wizard:

- the step catalog;
- the answer store and its three handlers;
- `calcScore`, `maxScore` and the `canNext` gate;
- the navigation transitions (Next/Finish, Previous, tab jumps, Edit Answers);
- the summary projection.

The model works for any catalog with at least one step. The wizard's own
five-step catalog is `Catalog.Steps`.

Modules, one per component:

- `JsValues` — answer cells are JavaScript values (`undefined`, a boolean or a
  string). It defines truthiness, `=== "yes"`, `!v`, out-of-range array reads
  (which give `undefined`) and `Array.prototype.filter`, so that scoring, gating
  and the summary follow the source's JavaScript literally.
- `Catalog` — the three step kinds as one datatype, `maxScore`, and the concrete
  catalog.
- `Answers` — rows shaped by the step kind:
  - the initial store;
  - the copy-then-overwrite-one-cell update (`Write`) shared by the three handlers;
  - the shape invariant `Conforms`: one row per step, one cell per item or field,
    each cell of the step's kind.
- `Scoring` — `calcScore` and its properties.
- `Gating` — `canNext` (`some` / `every`) and its properties.
- `Summary` — the per-step display text of the summary view.
- `Session` — the class `Wizard`. Its fields are `step`, `showSummary` and
  `answers`, and its methods are the handlers. `Valid()` keeps three things: the
  step index in range, the store conforming, and the summary reachable only from
  the last step.
- `Scenarios` — sessions driven through the handlers, and a client that toggles
  one box twice.

Behaviour reproduced as the code has it:

- The planner step takes the non-multi branch of `calcScore`. Its "Progress"
  therefore counts the fields whose text is exactly `"yes"`
  (`Scoring.PlannerProgressCountsLiteralYes`).
- `canNext` on a multi-select step uses `some`. A multi-select step without items
  could therefore never be passed with Next/Finish, though Previous and the tabs
  still leave it. A single-select step without items (`every`) passes
  (`Gating.FreshGate`).
- The page wires each answer handler only to controls of the matching step kind
  and to existing item indices. The `requires` clauses of `HandleRadio`,
  `HandleMulti` and `HandleField` state just that: the step kind and the index.
  They do not require the summary to be hidden. The handlers never change
  `step` or `showSummary`, so the session invariant holds either way.
- The navigation methods require what the page requires before offering them:
  - Next needs `canNext` to hold and the summary to be hidden.
  - Previous and the tabs need the summary to be hidden. The page also disables
    Previous at step 0; the model accepts the call there, where it changes nothing.
  - Edit Answers needs the summary to be shown.

## Model

| member | source | states |
|---|---|---|
| `Catalog.StepsShape` | src/App.js:4-132 | The catalog has five steps: three single-select checklists of 5 items, one multi-select checklist of 6 items, one planner of 8 fields |
| `JsValues.Filter` | src/App.js:136-137 | `filter` keeps no more elements than it was given, and only elements that pass the test |
| `JsValues.FilterAll` | src/App.js:136-137 | The filtered length equals the row length iff every element passes |
| `JsValues.FilterNone` | src/App.js:136-137 | The filtered length is 0 iff no element passes |
| `JsValues.FilterAfterWrite` | src/App.js:136-137 | Overwriting one element changes the filtered length only by that element's contribution before and after |
| `Answers.InitialAnswers` | src/App.js:142-148 | Fresh store: one row per step, as long as its item or field count. Cells are `undefined` (single-select), `false` (multi-select) or `""` (planner), so the store conforms to the catalog |
| `Answers.Write` | src/App.js:158-174 | Copy-then-set: row count and every row length are unchanged, cell [s][i] holds the new value, every other cell is unchanged |
| `Answers.WriteConforms` | src/App.js:158-174 | Writing a value of the step's kind keeps the store conforming |
| `Answers.ToggleTwice` | src/App.js:164-168 | Flipping the same boolean cell twice gives back the original store |
| `Catalog.MaxScore` | src/App.js:154-156 | `maxScore` is the checklist length, or the field count for a planner. `Answers.InitialAnswers` makes every row that long, and `Scoring.ScoreWithinMax` and `Scoring.FullScoreIff` show it is the highest score, reached only by an all-"yes" or all-ticked row |
| `Scoring.CalcScore` | src/App.js:134-138 | An absent row scores 0; a present row never scores above its length |
| `Scoring.ScoreWithinMax` | src/App.js:151-156 | For a conforming row, 0 <= score <= maxScore |
| `Scoring.FreshScoresZero` | src/App.js:134-148 | A freshly initialised row of any step kind scores 0 |
| `Scoring.FullScoreIff` | src/App.js:134-138 | A conforming row scores maxScore iff every cell is `"yes"`, or every box is ticked on a multi-select step |
| `Scoring.ScoreAfterWrite` | src/App.js:153-174 | Overwriting one cell moves the score by what that cell counts after minus what it counted before, so by at most one |
| `Scoring.ToggleShiftsScore` | src/App.js:164-168 | On a multi-select step one toggle moves the score by exactly one: down if the box was ticked, up otherwise |
| `Scoring.PlannerProgressCountsLiteralYes` | src/App.js:134-138 | A planner whose fields hold any text other than `"yes"` shows progress 0 |
| `Gating.AnyTruthy` | src/App.js:180 | `some((a) => a)` holds iff some cell is truthy |
| `Gating.AllDefined` | src/App.js:182 | `every((a) => a !== undefined)` holds iff no cell is `undefined` |
| `Gating.CanNext` | src/App.js:176-183 | Gate is always open on a planner; on a multi-select step iff some cell is truthy; on a single-select step iff no cell is unanswered |
| `Gating.MultiGateIffPositiveScore` | src/App.js:176-183 | On a multi-select step the gate is open iff the score is positive |
| `Gating.FreshGate` | src/App.js:142-183 | On a fresh row the gate is open iff the step is a planner or an item-less single-select checklist |
| `Gating.AnswerOpensSingleGate` | src/App.js:158-183 | On a single-select step, an unanswered item keeps the gate closed; answering never closes it; answering the last open item opens it |
| `Gating.ToggleOpensMultiGate` | src/App.js:164-183 | On a multi-select step with nothing ticked, one toggle opens the gate and toggling the same box back closes it |
| `Summary.Shown` | src/App.js:378-386 | On a multi-select step the text is "✔️ Selected" iff the cell is truthy, "—" otherwise. On other steps it is "Yes" iff the cell is "yes", "No" iff it is "no", and "Not answered" for anything else |
| `Summary.ChecklistLines` | src/App.js:363-399 | One line per checklist item, in order. Each line has the item's caption and description and shows Yes/No/Not answered, or Selected/— on a multi-select step |
| `Summary.FieldLines` | src/App.js:409-419 | The planner lines are exactly the fields with non-empty content: every such field is listed with its text, and nothing else is listed |
| `Summary.SectionOf` | src/App.js:344-422 | Section k+1 carries the step's name. A checklist section's line j gives item j's caption and description, with the Shown text of cell j of the step's own row. A planner section's lines are `FieldLines` of that row |
| `Summary.SummaryOf` | src/App.js:343-423 | One section per step, in order, numbered from 1 and carrying the step's name. In section k, checklist line j shows item j with the Shown text of `store[k][j]`, and a planner section lists `FieldLines` of `store[k]` |
| `Summary.SummaryCountMatchesScore` | src/App.js:343-423 | In the assembled summary, section k of a checklist step shows as many "Yes"/"Selected" lines as step k's own row scores |
| `Summary.ChecklistCount` | src/App.js:363-386 | In a checklist's lines, the "Yes" lines (single-select) or "Selected" lines (multi-select) are as many as the cells that count |
| `Summary.SectionCountMatchesScore` | src/App.js:363-386 | A checklist section shows as many "Yes" / "Selected" lines as the step's score |
| `Summary.PlannerSectionListsFilledFields` | src/App.js:409-419 | A planner section lists as many lines as there are non-empty fields, each with non-empty text |
| `Summary.FreshSummary` | src/App.js:343-423 | With fresh answers: every single-select item shows "Not answered", every multi-select item shows "—", and no planner field is listed |
| `Session.Wizard.constructor` | src/App.js:141-149 | Session starts at step 0 with the summary hidden and the initial answer store |
| `Session.Wizard.Score` | src/App.js:151-153 | The current step's score is at most its maxScore. It equals maxScore iff every cell is "yes", or every box is ticked on a multi-select step. On a multi-select step it is positive iff Next is enabled |
| `Session.Wizard.Max` | src/App.js:154-156 | The current step's maxScore equals the length of its answer row |
| `Session.Wizard.CanNext` | src/App.js:176-183 | Next is enabled on the current step: always on a planner; on a multi-select step iff some cell of the row is truthy; on a single-select step iff no cell is unanswered |
| `Session.Wizard.HandleRadio` | src/App.js:158-162 | Sets cell [step][i] to "yes"/"no" and nothing else; step, summary flag and store shape are kept |
| `Session.Wizard.HandleMulti` | src/App.js:164-168 | Flips boolean cell [step][i] and nothing else; step, summary flag and store shape are kept |
| `Session.Wizard.HandleField` | src/App.js:170-174 | Replaces the text of cell [step][i] verbatim and nothing else; step, summary flag and store shape are kept |
| `Session.Wizard.HandleNext` | src/App.js:185-188 | Needs an open gate. On the last step it shows the summary and keeps the step; otherwise it advances by one. The step stays in range and the answers are unchanged |
| `Session.Wizard.Previous` | src/App.js:672-673 | Step becomes max(step - 1, 0), so step 0 is a no-op; answers and summary flag are unchanged |
| `Session.Wizard.JumpTo` | src/App.js:273-274 | While the summary is hidden, any tab moves to its step with no gating; answers are unchanged |
| `Session.Wizard.EditAnswers` | src/App.js:444-447 | From the summary, returns to step 0 with the summary hidden and every answer unchanged |
| `Scenarios.FirstStepScenario` | src/App.js:158-188 | Five-item yes/no step: items 0-3 answered "yes" keep the gate closed; answering item 4 "no" opens it at score 4 of 5 |
| `Scenarios.PathwayScenario` | src/App.js:164-188 | Six-item multi-select step reached by its tab: ticking boxes 1 and 3 gives 2 of 6 and opens the gate |
| `Scenarios.TickUntickScenario` | src/App.js:164-183 | On a fresh multi-select step, ticking any one box opens the gate, and unticking it again closes it |
| `Scenarios.ToggleBoxTwice` | src/App.js:164-168 | Calling handleMulti twice on the same box leaves the answers and the step as they were |

## Left out

- Rendering, JSX layout and inline styles: the tab colours, the `QuestionMark`
  badge, the colours of the summary's answer spans, the "Checklist"/"Planner"
  heading words and the column headers (src/App.js:190-221, 224-795). They
  display state and do not change it.
- framer-motion animation (src/App.js:2, 315-322, 709-718, 760-776): a foreign
  library with timing behaviour only.
- `handlePrint` / `window.print()` (src/App.js:201-203): platform output with no
  result the wizard uses.
- The footer year from `new Date().getFullYear()` (src/App.js:791): a clock read.
- React's `useState` and re-rendering (src/App.js:141-149). The state is the
  fields of one `Wizard` object. Each handler's update is a single assignment of
  a freshly built store, so no row is shared between snapshots.
- The stray `))}` text at src/App.js:666: a JSX text artifact, not logic.
- `Summary.FieldLines` states which fields are listed, but not that they keep
  catalog order, nor how often identical lines repeat (the definition keeps
  both). `Summary.PlannerSectionListsFilledFields` states how many are listed.
- `Scenarios.FirstStepScenario`, `Scenarios.PathwayScenario`: stated for any
  catalog whose step 0 (respectively step 3) has the shape of the wizard's own.
  `Catalog.StepsShape` shows that the wizard's catalog has these shapes.
