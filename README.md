# Herd-behaviour survey: scoring, wizard and result view

This project models the decision logic of a web application that screens
secondary-school students for herd behaviour. The modelled parts are:

- the thirteen-question catalog;
- the survey page's step wizard and answer map;
- the score computed from the answers, the risk tier derived from the
  score, and the advice table keyed by the tier;
- the result page's display lookup, its per-tier blocks and its score bar;
- the application shell's page state;
- the sliding window of the heart-rate chart.

The modules follow the program's files:

| file | module | models |
|---|---|---|
| `wrappers.dfy` | `Wrappers` | the `Option` type |
| `questions.dfy` | `Questions` | `src/types/index.ts` (`Question`) and `src/data/questions.ts` |
| `scoring.dfy` | `Scoring` | `calculateScore`, `getRiskLevel`, `getRecommendations` and the compute order of `submitSurvey` in `src/pages/Survey.tsx` |
| `wizard.dfy` | `Wizard` | the step and answer state of `src/pages/Survey.tsx` (`handleUserInfoSubmit`, `handleAnswer`, `handleNext`, `handlePrevious`, `isLastQuestion`) |
| `result_view.dfy` | `ResultView` | `src/pages/Result.tsx` (`getRiskConfig`, the analysis and warning blocks, the numbered advice, the score bar) |
| `app.dfy` | `App` | `src/App.tsx` (the page and survey-id state, the header rule, the rendered view) |
| `heart_rate.dfy` | `HeartRate` | `addHeartBeat` and `generateRandomHeartRate` in `src/components/HeartRateChart.tsx` |

Modelling choices:

- An answer is `Num(n)` or `Text(s)`. A question without an answer has no
  key in the answer map.
- The score is specified by the function `ScoreOf`, a sum over the catalog
  in catalog order. The method `CalculateScore` is the page's accumulation
  loop and is proved equal to `ScoreOf`.
- The survey page, the application shell and the chart update their state
  in place. They are classes whose methods state the new state exactly.
  The application shell also has a pure `Step`/`Run` over event sequences,
  and the properties of whole runs are proved on those.
- The stored tier is read back as a string, so the result page's lookups
  are total over strings.
- Advice items are an enumeration (`Scoring.Advice`). `Advice.Text()` gives
  each item's sentence exactly as shipped, and the stored row carries those
  texts.
- The catalog's question texts and option labels are parameters of
  `Questions.Catalog`. The catalog's ids, kinds, number of options and
  categories are fixed in `Catalog`, and the shipped texts are in
  `Questions.Wording` and `Questions.OptionLabels`. The catalog lemmas
  hold for any texts, so they cover the shipped catalog
  `SurveyQuestions()`. The verifier pays for every character of a string
  literal, so this split keeps the catalog proofs affordable.

Two places where the code and its description differ:

- `getRecommendations` returns the empty list for an unknown tier name
  (src/pages/Survey.tsx:258). Only the result page falls back to the
  medium tier, and only for the display configuration
  (src/pages/Result.tsx:106). Both are modelled as the code does them.
- `handleNext` submits when it runs on the completion step
  (src/pages/Survey.tsx:146-147). But its only button is on the question
  screens (src/pages/Survey.tsx:487). The completion screen submits through
  its own button (src/pages/Survey.tsx:360-363). `Wizard.SurveyWizard.Next`
  keeps both branches. Its contract states that it submits exactly when
  called on the completion step. `Wizard.SurveyWizard.SubmitSurvey` models
  the completion screen's button.

## Model

| member | source | states |
|---|---|---|
| Questions.Catalog | src/data/questions.ts:3-100 | the catalog has thirteen entries, each with the wording of its position |
| Questions.IdNumber | src/data/questions.ts:5 | a string with a number is "q" followed by one or two digits |
| Questions.IdNumberInjective | src/data/questions.ts:5 | two such ids with the same number are the same string |
| Questions.CatalogIds | src/data/questions.ts:3-100 | the ids are "q1" .. "q13" in catalog order, so they are pairwise distinct |
| Questions.CatalogKindAt | src/data/questions.ts:3-100 | q1-q5, q8 and q9 are likert, q6, q7 and q10 multiple choice, q11-q13 open-ended, position by position |
| Questions.ShippedKindCounts | src/data/questions.ts:6-96 | that kind sequence holds seven likert, three multiple-choice and three open-ended entries |
| Questions.CatalogKinds | src/data/questions.ts:3-100 | the catalog has seven likert, three multiple-choice and three open-ended questions, so ten are scored |
| Questions.CatalogOptions | src/data/questions.ts:34-81 | exactly q6, q7 and q10 are multiple choice, exactly they carry options, and each has four |
| Scoring.Contribution | src/pages/Survey.tsx:217-222 | an open-ended question, a missing answer or a text answer adds 0; a valid likert answer adds 1..5; a valid choice among m options adds more than 5 - m and at most 5 |
| Scoring.NothingNumericScoresZero | src/pages/Survey.tsx:214-225 | a catalog none of whose questions holds a numeric answer scores 0, as the page does before any answer |
| Scoring.CalculateScore | src/pages/Survey.tsx:214-225 | the accumulation loop returns the sum of the per-question contributions in catalog order |
| Scoring.ScoreAppend | src/pages/Survey.tsx:215-224 | the score of a concatenated catalog is the sum of the scores of its parts |
| Scoring.ScoreCongruence | src/pages/Survey.tsx:216-222 | two answer sets that give every question the same contribution give the same score |
| Scoring.ForeignAnswersIgnored | src/pages/Survey.tsx:216-217 | answers keyed by ids outside the catalog never change the score, whether added or removed |
| Scoring.OpenEndedAnswerIgnored | src/pages/Survey.tsx:218-222 | adding, changing or removing an open-ended question's answer never changes the score |
| Scoring.TextAnswerIgnored | src/pages/Survey.tsx:218-221 | a non-numeric answer scores exactly as a missing one |
| Scoring.SplitNeighboursUnaffected | src/pages/Survey.tsx:216-217 | with distinct ids, dropping one question's answer changes no other question's contribution |
| Scoring.ScoreSplitAt | src/pages/Survey.tsx:216-223 | with distinct ids, the score is the score without one question's answer plus that question's contribution |
| Scoring.LikertAddsValue | src/pages/Survey.tsx:218-219 | answering a likert question with the number v adds exactly v |
| Scoring.ChoiceAddsInverseIndex | src/pages/Survey.tsx:220-221 | answering a multiple-choice question with index i adds exactly 5 - i |
| Scoring.ScoreUpperBound | src/pages/Survey.tsx:214-225 | with valid answers to the scored questions present and at most five options per choice question, the score is between 0 and 5 per scored question, whatever the open-ended answers |
| Scoring.ScoreLowerBound | src/pages/Survey.tsx:214-225 | with every scored question answered validly and at most four options, each likert question adds at least 1 and each choice question at least 2, whatever the open-ended answers |
| Scoring.AllHighestScore | src/pages/Survey.tsx:214-225 | all-highest answers reach the upper bound of 5 per scored question |
| Scoring.AllLowestScore | src/pages/Survey.tsx:214-225 | all-lowest answers reach the lower bound when every choice question has four options |
| Scoring.CatalogScoreRange | src/data/questions.ts:3-100 | for the catalog, valid answers to the ten scored questions score between 13 and 50, whatever the open-ended answers |
| Scoring.ExtremesOfCounts | src/pages/Survey.tsx:214-225 | any catalog with distinct ids, seven likert and three four-option choice questions scores 50 on all-highest and 13 on all-lowest answers |
| Scoring.CatalogExtremes | src/data/questions.ts:3-100 | for the catalog, all-highest answers score 50 (critical) and all-lowest answers 13 (low) |
| Scoring.EmptyCatalog | src/pages/Survey.tsx:214-225 | an empty catalog scores 0, which is low |
| Scoring.SmallCatalogExample | src/pages/Survey.tsx:214-232 | likert 5 plus the first of three options gives 10, which is low |
| Scoring.RiskOf | src/pages/Survey.tsx:227-232 | the tier returned is the one whose band (up to 15, 16..30, 31..45, above 45) holds the score |
| Scoring.BandsDisjoint | src/pages/Survey.tsx:227-232 | no score lies in two bands, so the tier is unique |
| Scoring.RiskMonotone | src/pages/Survey.tsx:227-232 | a higher score never yields a lower tier |
| Scoring.RiskThresholds | src/pages/Survey.tsx:228-231 | the thresholds are inclusive: 15 low, 16 medium, 30 medium, 31 high, 45 high, 46 critical |
| Scoring.NamesDistinct | src/pages/Survey.tsx:227-232 | the four tier names are distinct, so a stored name identifies its tier |
| Scoring.RecommendationTable | src/pages/Survey.tsx:235-257 | the table is keyed by exactly the four tier names, and every item listed under a name belongs to that tier |
| Scoring.Recommendations | src/pages/Survey.tsx:234-259 | two advice items for low, three for medium, four for high and critical, none for any other name; an item is listed exactly when it belongs to the named tier |
| Scoring.AdviceForEveryScore | src/pages/Survey.tsx:192-194 | the tier of any score finds two to four advice items, and exactly two when the score is at most 15 |
| Scoring.Evaluate | src/pages/Survey.tsx:192-194 | the submission computes the score, then the tier from it, then the advice from the tier |
| Scoring.EvaluationConsistent | src/pages/Survey.tsx:192-201 | the stored score is the sum, its tier's band holds it, the stored name is that tier's, and two to four advice items are stored |
| Wizard.ScreenOf | src/pages/Survey.tsx:142-143 | a step shows a question exactly when it is in 1..N, and then question number step |
| Wizard.NextStep | src/pages/Survey.tsx:145-151 | "next" moves forward by one or stays, stays exactly on the completion screen, and never leaves the steps |
| Wizard.PreviousStep | src/pages/Survey.tsx:153-157 | "previous" moves back by one exactly above step 1, stays otherwise, and never leaves a question or completion step for the profile form |
| Wizard.NextStaysInRange | src/pages/Survey.tsx:145-151 | "next" moves one step forward from the profile form and the questions and stays on the completion step |
| Wizard.PreviousNeverReachesProfile | src/pages/Survey.tsx:153-157 | "previous" never goes below step 1 from a question or the completion screen |
| Wizard.NextPreviousInverse | src/pages/Survey.tsx:145-157 | "previous" undoes "next" on a question, and "next" undoes "previous" above step 1 |
| Wizard.AdvanceSaturates | src/pages/Survey.tsx:145-151 | pressing "next" k times moves k steps, but never past the completion step |
| Wizard.SurveyWizard.IsLastQuestion | src/pages/Survey.tsx:143 | the flag holds exactly on the completion screen, never on a question |
| Wizard.SurveyWizard.NextEnabled | src/pages/Survey.tsx:488 | when the button is enabled on a valid state, every question up to and including the current one has an answer |
| Wizard.SurveyWizard.constructor | src/pages/Survey.tsx:19-27 | the page starts on the profile form with no answers |
| Wizard.SurveyWizard.SubmitProfile | src/pages/Survey.tsx:133-136 | submitting the profile moves to step 1 and keeps the answers |
| Wizard.SurveyWizard.Answer | src/pages/Survey.tsx:138-140 | an answer overwrites the entry for its id and leaves every other entry and the step alone |
| Wizard.AnswerIdempotent | src/pages/Survey.tsx:138-140 | storing the same answer twice is the same as storing it once |
| Wizard.SurveyWizard.Next | src/pages/Survey.tsx:145-151 | the step becomes the next step, answers are unchanged, and an evaluation of the answers is submitted exactly on the completion step |
| Wizard.SurveyWizard.Previous | src/pages/Survey.tsx:153-157 | the step moves back one only from above 1, and answers are unchanged |
| Wizard.SurveyWizard.SubmitSurvey | src/pages/Survey.tsx:341-364 | on the completion screen every question has an answer and the submission evaluates the current answers |
| ResultView.ConfigOf | src/pages/Result.tsx:64-105 | the colour name of each tier's configuration gives the tier back, so the four configurations differ, and the warning triangle is drawn for high and critical only |
| ResultView.RiskConfigFor | src/pages/Result.tsx:63-107 | a tier name gets its tier's configuration, and any other string that is not an inherited property name gets medium's |
| ResultView.ConfigFallbackOnlyMedium | src/pages/Result.tsx:106 | a non-medium configuration is shown only when that tier's name is stored |
| ResultView.AnalysisBlocks | src/pages/Result.tsx:150-186 | exactly one analysis paragraph is shown for each tier name, that tier's, and none for any other string |
| ResultView.ShowsCriticalWarning | src/pages/Result.tsx:204 | the warning shows exactly when the critical paragraph is the one shown, and then under the critical configuration |
| ResultView.Numbered | src/pages/Result.tsx:193-196 | the advice is rendered in stored order, item i numbered i + 1 |
| ResultView.NumberedRoundTrip | src/pages/Result.tsx:193-198 | the rendered texts are exactly the stored advice, and the numbers increase by one |
| ResultView.ScoreBarWidth | src/pages/Result.tsx:135 | the bar fill never exceeds 100, is 100 exactly from a score of 60, and is non-negative for a non-negative score |
| ResultView.ScoreBarMonotone | src/pages/Result.tsx:135 | a higher score never fills less of the bar |
| ResultView.PageOf | src/pages/Result.tsx:109-219 | the page shows the stored score and one numbered line per stored item; its configuration is that of the analysis paragraph shown, medium's when none is; the warning comes exactly with the critical paragraph |
| ResultView.ScreenOf | src/pages/Result.tsx:36-61 | the spinner shows while loading, "not found" once loading ended without a row, else the page for the row |
| ResultView.PageOfAnyRow | src/pages/Result.tsx:109-219 | for any stored row: one analysis paragraph exactly for a known name, medium's configuration (for names that are not inherited property names) and no paragraph otherwise, the warning exactly for "critical", the advice kept in order |
| ResultView.PageOfEvaluation | src/pages/Result.tsx:109-219 | for a row a submission stored, the configuration and paragraph are the score's tier's, the warning shows exactly above 45, and two to four advice lines are shown |
| ResultView.CatalogBarNeverFull | src/pages/Result.tsx:135 | for the catalog and valid answers to its scored questions the bar is strictly between empty and full |
| App.HeaderVisible | src/App.tsx:45-47 | among the seven pages the header is drawn exactly on home, situation, about, contact and reviews, and it is drawn on any unknown page name |
| App.HeaderMatchesView | src/App.tsx:45-65 | the header is drawn above every rendered view except the survey and the result views |
| App.RenderedViews | src/App.tsx:49-65 | exactly one view is rendered for each of the seven page names, the one named so, and none for any other string |
| App.ViewRoundTrip | src/App.tsx:49-65 | each view is rendered alone on its own page |
| App.Step | src/App.tsx:18-41 | only a survey completion changes the survey id, and it stores the completed survey's id |
| App.SurveyIdIsLastCompletion | src/App.tsx:22-25 | after any sequence of handlers the survey id is that of the last completion, or the initial one before any |
| App.FeasibleRunsStayKnown | src/App.tsx:15-65 | along handlers the rendered page can call, the page stays one of the seven, exactly one view is rendered, and the situation and result pages come only after a completion, and there the survey id is that of the last completion |
| App.AppShell.constructor | src/App.tsx:15-16 | the shell starts on the home page with an empty survey id |
| App.AppShell.HandleStartSurvey | src/App.tsx:18-20 | starting the survey opens the survey page and keeps the survey id |
| App.AppShell.HandleSurveyComplete | src/App.tsx:22-25 | a completion stores its id and opens the situation page |
| App.AppShell.HandleSituationComplete | src/App.tsx:27-29 | finishing the situation opens the result page and keeps the survey id |
| App.AppShell.HandleBackHome | src/App.tsx:31-37 | every back and home handler opens the home page and keeps the survey id |
| App.AppShell.HandleNavigate | src/App.tsx:39-41 | navigation stores the page name it is given and keeps the survey id |
| HeartRate.LastSamples | src/components/HeartRateChart.tsx:37 | the window is the last 30 entries, or all of them when there are fewer |
| HeartRate.Window | src/components/HeartRateChart.tsx:35-38 | after a tick the window holds between 1 and 30 samples, the new sample is last, and the samples before it are the latest of the old window, in order |
| HeartRate.WindowAppendsWhenShort | src/components/HeartRateChart.tsx:36-37 | below 30 samples nothing is dropped: the new sample is appended |
| HeartRate.WindowDropsOldestWhenFull | src/components/HeartRateChart.tsx:37 | at 30 samples the oldest is dropped and the rest keep their order |
| HeartRate.WindowOfLatest | src/components/HeartRateChart.tsx:35-38 | cutting the window before appending keeps the same samples as cutting after |
| HeartRate.FeedKeepsLatest | src/components/HeartRateChart.tsx:35-38 | any stream of ticks from the empty chart leaves exactly the stream's last 30 samples, in order |
| HeartRate.RandomBpm | src/components/HeartRateChart.tsx:21-23 | a draw in [0, 1) gives a rate between 60 and 100 |
| HeartRate.EveryRateReachable | src/components/HeartRateChart.tsx:21-23 | every rate between 60 and 100 comes from some draw |
| HeartRate.HeartRateChart.constructor | src/components/HeartRateChart.tsx:18 | the chart starts empty |
| HeartRate.HeartRateChart.AddHeartBeat | src/components/HeartRateChart.tsx:25-39 | a tick replaces the data by the window of the old data plus the new sample, keeping at most 30 samples, all rates in 60..100 |

## Left out

- Persistence: the inserts into `surveys`, `survey_responses` and
  `survey_results` and the load in the result page are network I/O. The
  model keeps their order of computation (`Scoring.Evaluate`) and the row
  the result page reads (`ResultView.StoredResult`). A failed insert and
  its alert are not modelled.
- The answer rows built from `Object.entries(answers)`, including the
  `'likert'` default for unknown ids, are part of the persistence.
- Camera, face-expression worker, situation exercise content, chat
  proxies, reviews and the static pages are not modelled. They are
  browser media, third-party libraries, HTTP calls, random picks or markup.
- `Math.random`, the clock label from `toLocaleTimeString` and the 2-second
  interval: the draw and the label are parameters of
  `HeartRate.HeartRateChart.AddHeartBeat`, and a sequence of ticks is
  `HeartRate.Feed`.
- The survey page passes `heartRates` to the chart at
  src/pages/Survey.tsx:499, but no variable of that name is in scope. The
  props are never destructured. Rendering is not modelled.
- Scoring.Answer: JavaScript numbers are modelled as integers. The page
  only stores the integers 1..5 and option indices. Fractional or special
  numbers in a hand-made answer map are not modelled.
- Scoring.Contribution: only own keys of the answer map are modelled. A
  JavaScript lookup of an inherited key such as `"constructor"` is not; no
  catalog id is such a key.
- Scoring.Recommendations: for an inherited property name such as
  `"constructor"`, `"toString"` or `"__proto__"`, the JavaScript lookup
  returns a truthy non-array instead of the empty list. The model returns
  the empty list for every string outside the four tier names.
- ResultView.RiskConfigFor: for an inherited property name such as
  `"constructor"`, `"toString"` or `"__proto__"`, the lookup is truthy, so
  the page does not fall back to medium's configuration and its fields are
  undefined. The model gives medium's configuration for every string
  outside the four tier names, so `ResultView.PageOf` and
  `ResultView.PageOfAnyRow` state the fallback for such names too. A
  submission always stores one of the four names.
- ResultView.ScoreBarWidth: a negative score would give a negative CSS
  width. The model states the value; how a browser draws it is out of scope.
- The `answers[currentQuestion.id] === undefined` test is modelled as the
  id having no key. The page never stores `undefined`.
- The catalog's question texts and option labels are kept verbatim in
  `Questions.Wording` and `Questions.OptionLabels`. No lemma states them
  character by character.
- The two identical texts of q12 and q13 are kept as written.
