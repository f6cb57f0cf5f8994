# pedagogist scoring and practice core, in Dafny

This project models the core of *pedagogist*, a PTE Academic practice
application, and proves properties of the model. The core has two halves.

- **Scoring edge functions**:
  - `score-writing`: trait clamping and the weighted overall.
  - `score-speaking`: fence stripping and reconciling the overall with the weighted traits.
  - `score-mocktest-ai` and `score-pte-agentic`: routing, maximum scores, the objective scorers for single and multiple choice, reorder and fill-in-the-blanks, and parsing the model's reply.
  - `transcribe-audio`: chunked base64 decoding.
- **Client state**:
  - the mock-test section and page (question generation, answers, tallies and final scores, the timers);
  - the daily scoring limit;
  - the study planner (weak areas, study plan, countdown);
  - user history and the history panel;
  - the certificate bands;
  - the phase machine of the writing screen;
  - navigation on the practice page.

The model makes these choices:

- JavaScript numbers are exact `real`s.
- `Math.round(x)` is `(x + 0.5).Floor`.
- An optional number read with `x || d` is an `Option`, and `0` also falls back to `d`.
- Network calls, the model gateway, `JSON.parse`, the clock and `Math.random` do not appear. Their results are parameters of the operations that use them.
- Components whose handlers update state are classes whose methods change their fields.
- Pure helpers are functions with lemmas about them.

## Model

| member | source | states |
|---|---|---|
| WritingScorer.Clamp | supabase/functions/score-writing/index.ts:169 | the clamped value is on 0-90; a value already on the scale is only rounded; below 0 gives 0, above 90 gives 90 |
| WritingScorer.ClampKeepsScaleScores | supabase/functions/score-writing/index.ts:169 | clamping an integer score already on 0-90 returns it unchanged |
| WritingScorer.WeightsFor | supabase/functions/score-writing/index.ts:30-35 | the weight row is one of the three in the table, and a test type without a row gets equal weights 1,1,1,1 (line 177) |
| WritingScorer.OverallBetweenTraits | supabase/functions/score-writing/index.ts:176-184 | with any test type's weights, the weighted, rounded and clamped overall lies between the lowest and the highest trait |
| WritingScorer.Trait | supabase/functions/score-writing/index.ts:171-174 | a trait is on 0-90; a missing or zero reply value scores 50, and a present non-zero value v scores the clamp of v |
| WritingScorer.Assemble | supabase/functions/score-writing/index.ts:168-203 | each trait is the trait score of the reply's own value; the overall is the weighted overall of those four traits with the test type's weights, so between the lowest and highest trait; strengths, improvements and tips are the reply's lists or "Good attempt", "Continue practicing" and "Practice regularly"; the feedback is the four trait lines in order |
| WritingScorer.FeedbackLinesReadBack | supabase/functions/score-writing/index.ts:192-197 | the feedback lines are "Content", "Grammar", "Vocabulary", "Form" in that order, each followed by its score over 90, and each score reads back from its digits |
| WritingScorer.TraitLineReadsBack | supabase/functions/score-writing/index.ts:193-196 | a line "<name>: <digits>/90" reads back as the score it was built from |
| WritingScorer.Handle | supabase/functions/score-writing/index.ts:37-218 | a result comes exactly with status 200 and every other status carries an error; a missing key is a 500 with its message; a failed gateway call passes 429 ("Rate limit exceeded. Please try again later.") and 402 ("Usage limit reached. Please add credits.") through and turns any other status into 500 "Scoring failed: <status>"; a reply without a brace pair, or whose object does not parse, is a 500 "Failed to parse scoring response"; a parsed reply gives 200 with exactly the assembled result |
| WritingScorer.EmptyReplyScoresFifty | supabase/functions/score-writing/index.ts:171-184 | a reply with no trait scores scores 50 on every trait and overall |
| SpeakingScorer.WeightsFor | supabase/functions/score-speaking/index.ts:39-47 | exactly the seven listed test types have a weight row, and its weights are positive |
| SpeakingScorer.WeightsAreShares | supabase/functions/score-speaking/index.ts:39-47 | every weight row sums to 1 |
| SpeakingScorer.CalculatedOverallBetween | supabase/functions/score-speaking/index.ts:444-450 | with tabled weights and traits on 0-90, the calculated overall lies between the lowest and highest trait |
| SpeakingScorer.Reconciled | supabase/functions/score-speaking/index.ts:452-454 | the reported overall is kept exactly when it is within 5 of the calculated one and is otherwise replaced by it; the result is always within 5 of the calculated overall |
| SpeakingScorer.ReconcileIdempotent | supabase/functions/score-speaking/index.ts:452-454 | reconciling twice gives the same result as reconciling once |
| SpeakingScorer.ScoreReport.ReconcileOverall | supabase/functions/score-speaking/index.ts:444-454 | the report's overall becomes the reconciled value and its traits and feedback stay the same |
| SpeakingScorer.NoTicksKept | supabase/functions/score-speaking/index.ts:440 | text without backticks passes through both fence removals unchanged |
| SpeakingScorer.FencedBodyRecovered | supabase/functions/score-speaking/index.ts:440 | a JSON body without backticks and with no white space at its ends, wrapped in a ```json fence, comes out of the cleaning exactly |
| SpeakingScorer.UnfencedReplyOnlyTrimmed | supabase/functions/score-speaking/index.ts:440 | a reply without backticks is only trimmed |
| SpeakingScorer.Handle | supabase/functions/score-speaking/index.ts:49-475 | scores come exactly with status 200 and every other status carries an error; a missing key is a 500; a test type without a weight row is a 500 before the gateway is called (line 392 reads its weights); the gateway's 429 and 402 pass through with their messages and any other status is a 500 "AI gateway error: <status>"; an empty reply gives "No response from AI" and an unparsable one "Failed to parse scoring response"; a parsed reply gives 200 with the parsed scores and the overall reconciled against the weighted traits |
| MocktestScorer.MaxScore | supabase/functions/score-mocktest-ai/index.ts:91-130 | every maximum is between 1 and 26; it is 1 exactly for the five one-mark types and for a type name outside the table, which the `|| 1` default of line 130 covers |
| MocktestScorer.ParseType | supabase/functions/score-mocktest-ai/index.ts:120-121 | every `questionType` string is represented: the type it parses to has that string as its name |
| MocktestScorer.Route | supabase/functions/score-mocktest-ai/index.ts:134-140 | a type goes to the speaking scorer exactly when it is a speaking type (lines 165-167) and to the writing scorer exactly when it is a writing type (lines 169-171) |
| MocktestScorer.ObjectiveRouting | supabase/functions/score-mocktest-ai/index.ts:134-140 | the objective scorer gets exactly the single-choice, multiple-choice, fill-in-the-blanks, reorder and highlight-incorrect-words types |
| MocktestScorer.NormalizeScore | supabase/functions/score-mocktest-ai/index.ts:538-540 | the normalized score is in [0, max]; a score already in range is unchanged, above max gives max, below 0 gives 0 |
| MocktestScorer.EmptyFeedback | supabase/functions/score-mocktest-ai/index.ts:542-552 | zero marks and zero percent at the given maximum, no strengths, and the message as the only improvement and as the summary |
| MocktestScorer.ObjectiveFeedback | supabase/functions/score-mocktest-ai/index.ts:510-521 | the feedback carries the score and the total; a score within the total gives a percentage on 0-100; full marks give 100% and no improvements; there are no improvements exactly when the score reaches the total |
| MocktestScorer.ObjectivePercentage | supabase/functions/score-mocktest-ai/index.ts:510 | a score within a positive total gives a percentage on 0-100, full marks give 100, and no total gives 0 |
| MocktestScorer.MarkObjective | supabase/functions/score-mocktest-ai/index.ts:468-508 | the marks satisfy KeyedMarks: single choice scores 1 exactly when the first selected option is the first correct answer, out of 1; multiple choice scores right picks minus wrong picks, at least 0, out of the key's size; reorder scores the adjacent-pair count as written out of one less than the key's length; a type whose name contains "fill-blanks" scores the blanks answered correctly or, with no blanks, positional matches; any other type or a missing field scores 0 out of the type's maximum |
| MocktestScorer.KeyedMarksUnique | supabase/functions/score-mocktest-ai/index.ts:468-508 | the answer key fixes the marks: two markings of one request give the same score and total |
| MocktestScorer.ScoreObjective | supabase/functions/score-mocktest-ai/index.ts:468-522 | the feedback is the objective feedback for its own score and total, and those are the keyed marks of the answer, reorder counted as written |
| MocktestScorer.ParseJsonResponse | supabase/functions/score-mocktest-ai/index.ts:526-536 | a reply without a brace pair, or whose span does not parse, reads as the empty object; otherwise it reads as the parsed span |
| MocktestScorer.TextOr | supabase/functions/score-mocktest-ai/index.ts:325 | a present non-empty text is kept, and a missing or empty one gives the default |
| MocktestScorer.Trait | supabase/functions/score-mocktest-ai/index.ts:294-296 | a trait score is on 0-90; a missing or zero one is 50, and a present non-zero one is the reply's value normalized onto 0-90 |
| MocktestScorer.ScaledWithin | supabase/functions/score-mocktest-ai/index.ts:298-300 | a weighted trait average on 0-90 scaled to a maximum and rounded stays between 0 and that maximum |
| MocktestScorer.SpeakingTotal | supabase/functions/score-mocktest-ai/index.ts:298-300 | the speaking total (35/30/35) is between 0 and the maximum, and full traits give the maximum |
| MocktestScorer.WritingTotal | supabase/functions/score-mocktest-ai/index.ts:424-433 | the writing total (30/30/20/20 for essays, 40/30/15/15 otherwise) is between 0 and the maximum, and full traits give the maximum |
| MocktestScorer.ScoreSpeaking | supabase/functions/score-mocktest-ai/index.ts:206-331 | the feedback is out of the maximum with a total within it and a percentage on 0-100; no transcript gives the "No spoken text provided" empty feedback; a failed call gives "Unable to analyze speech"; a reply gives the speaking total of its pronunciation, fluency and content trait scores, the percentage of that total, the three rounded trait scores, and no grammar, vocabulary or structure; the strengths, improvements and tips are the reply's or "Good attempt", "Continue practicing" and "Practice regularly", and the overall feedback is the reply's non-empty text or the speaking default |
| MocktestScorer.ScoreWriting | supabase/functions/score-mocktest-ai/index.ts:334-465 | the feedback is out of the maximum with a total within it and a percentage on 0-100; no text gives the "No written text provided" empty feedback; a failed call gives "Unable to analyze writing"; a reply gives the writing total of its content, grammar, vocabulary and structure trait scores for the question type, the percentage of that total and the four rounded trait scores; the strengths, improvements and tips are the reply's or "Good attempt", "Continue practicing" and "Practice regularly", and the overall feedback is the reply's non-empty text or the writing default |
| MocktestScorer.UnreadableReplyScoresDefault | supabase/functions/score-mocktest-ai/index.ts:294-300 | a reply with no JSON object in it scores 50 on every trait, so 50/90 of the maximum, rounded |
| MocktestScorer.Handle | supabase/functions/score-mocktest-ai/index.ts:114-163 | without a key the status is 500 with the fixed error feedback (0 out of 1, "Unable to analyze response"); otherwise the status is 200; speaking and writing types get their scorer's feedback at the type's maximum, and objective types get the objective feedback of the keyed marks, reorder counted as written |
| AnswerCounting.CountIn | supabase/functions/score-mocktest-ai/index.ts:480 | the number of correct picks is at most the number of picks, and equals it exactly when every pick is in the key |
| AnswerCounting.CountNotIn | supabase/functions/score-mocktest-ai/index.ts:481 | the number of wrong picks is at most the number of picks, and is 0 exactly when every pick is in the key |
| AnswerCounting.CountsPartition | supabase/functions/score-mocktest-ai/index.ts:480-481 | every pick is counted once, as correct or as wrong |
| AnswerCounting.MultiChoiceWithinMaximum | supabase/functions/score-mocktest-ai/index.ts:478-484 | with no option picked twice, the multiple-choice score is at most the key's size, which the scorer reports as the maximum |
| AnswerCounting.AdjacentPairs | supabase/functions/score-mocktest-ai/index.ts:485-493 | the reorder count as written: 0 for fewer than two paragraphs, otherwise at most one per adjacent pair |
| AnswerCounting.ReorderAbsentItemOvercounts | supabase/functions/score-mocktest-ai/index.ts:487-489 | as written, ["x","a","b"] against ["a","b"] scores 2, above the maximum of 1 |
| AnswerCounting.AdjacentPairsCorrected | supabase/functions/score-mocktest-ai/index.ts:485-493 | the corrected reorder count is 0 for fewer than two paragraphs |
| AnswerCounting.CorrectedAtMostAsWritten | supabase/functions/score-mocktest-ai/index.ts:485-493 | the corrected count never exceeds the count as written |
| AnswerCounting.CorrectedAgreesWhenAllFound | supabase/functions/score-mocktest-ai/index.ts:485-493 | when every submitted paragraph is in the key, the corrected count equals the count as written |
| AnswerCounting.ReorderIdentityFullMarks | supabase/functions/score-mocktest-ai/index.ts:485-493 | submitting a key without repeats earns every adjacent pair, that is, the key's length minus 1 |
| AnswerCounting.ReorderCorrectedWithinMaximum | supabase/functions/score-mocktest-ai/index.ts:485-493 | with the correction, a submission without repeats scores at most the key's length minus 1, and the key itself scores exactly that |
| AnswerCounting.CountAdjacentPairs | supabase/functions/score-mocktest-ai/index.ts:486-490 | the loop computes the count as written, an absent paragraph's -1 included; the corrected count is at most that and equals it when every paragraph is found; two or more paragraphs score at most one less than their number |
| AnswerCounting.PositionalMatches | supabase/functions/score-mocktest-ai/index.ts:501-504 | the count is the number of positions where the selection equals the key (the size of `MatchedPositions`), so at most the number of selections and the key's length |
| AnswerCounting.MatchedPositionsSnoc | supabase/functions/score-mocktest-ai/index.ts:501-504 | one more selection adds its position to the matches exactly when it equals the key there |
| AnswerCounting.PositionalMatchesSelf | supabase/functions/score-mocktest-ai/index.ts:501-504 | submitting the key itself matches every position |
| AnswerCounting.CountPositionalMatches | supabase/functions/score-mocktest-ai/index.ts:501-504 | the option-by-option loop computes the positional matches |
| AnswerCounting.PercentageBetween | supabase/functions/score-mocktest-ai/index.ts:510 | a score within a positive total gives a rounded percentage on 0-100, and full marks give 100 |
| AnswerCounting.BlanksCorrect | supabase/functions/score-mocktest-ai/index.ts:494-500 | the number of blanks answered correctly, ignoring case, is at most the number of blanks and equals it exactly when every blank is right |
| AnswerCounting.CountBlanksCorrect | supabase/functions/score-mocktest-ai/index.ts:495-499 | the blank-by-blank loop computes the number of blanks answered correctly |
| AgenticScorer.MaxScore | supabase/functions/score-pte-agentic/index.ts:74-96 | every type's maximum is between 1 and 26 |
| AgenticScorer.SkillContributions | supabase/functions/score-pte-agentic/index.ts:99-121 | every type counts towards one or two skills, each with a share in (0, 1] |
| AgenticScorer.ContributionsAreShares | supabase/functions/score-pte-agentic/index.ts:99-121 | every type's shares add up to 1, and a type with two shares names two different skills |
| AgenticScorer.GuardsPartitionTypes | supabase/functions/score-pte-agentic/index.ts:222-236 | every one of the twenty-one types satisfies exactly one of the four type guards, so only a type string outside them reaches the "Unknown question type" error of line 179 |
| AgenticScorer.ReadingResult | supabase/functions/score-pte-agentic/index.ts:371-384 | the result carries the raw score out of the type's maximum with full confidence and no review flag; a score within the maximum gives a percentage on 0-100; there are no improvements exactly when the score reaches the maximum |
| AgenticScorer.SelectMissingWordNeverScores | supabase/functions/score-pte-agentic/index.ts:392-393 | as written, highlight-correct-summary and select-missing-word go to the reading scorer, whose switch (lines 336-369) has no case for them, so a correct answer scores 0 out of a maximum of 1 |
| AgenticScorer.ReadingScoreCorrected | supabase/functions/score-pte-agentic/index.ts:330-369 | with the correction, the two single-answer listening types score 1 exactly when the first selection equals the key; reorder never scores above the count as written and equals it when every paragraph is found; every other type scores as written |
| AgenticScorer.ScoreReading | supabase/functions/score-pte-agentic/index.ts:330-385 | the reading scorer returns the result built around the reading score as written: highlight-correct-summary and select-missing-word score 0, and reorder credits an absent paragraph followed by the first one |
| AgenticScorer.ReorderCreditsMissingParagraph | supabase/functions/score-pte-agentic/index.ts:351-361 | as written, ["x","a"] against the key ["a","b"] earns 1 pair; the correction gives 0 |
| AgenticScorer.CorrectedReorderWithinMaximum | supabase/functions/score-pte-agentic/index.ts:351-361 | with the correction, a reorder answer without repeats, marked against a key of at most five paragraphs, stays within the maximum of 4 |
| AgenticScorer.CorrectedSingleAnswerFullMarks | supabase/functions/score-pte-agentic/index.ts:337-340 | with the correction, every single-answer type scores at most its maximum of 1, and a right answer earns it |
| AgenticScorer.GatewayErrorMessage | supabase/functions/score-pte-agentic/index.ts:453-464 | status 429 and status 402 have their own messages; any other failed status gives "AI scoring failed: " and the status |
| AgenticScorer.TraitAverageWithinMax | supabase/functions/score-pte-agentic/index.ts:480-485 | trait scores on 0-90 without a reply total give a total between 0 and the maximum |
| AgenticScorer.ScaledWithin | supabase/functions/score-pte-agentic/index.ts:484 | a trait average on 0-90 scaled to a maximum and rounded lies between 0 and that maximum |
| AgenticScorer.ParseAIResponse | supabase/functions/score-pte-agentic/index.ts:471-501 | a reply without a JSON object, or whose object does not parse, fails with "Failed to parse AI response", and only then; a parsed reply's total is its own total (or scaled trait average, or 0) capped at the type's maximum, a total in (0, max] is kept, the percentage is that of the uncapped total, a missing confidence is 0.85, the skill shares are the type's, and the reply is not flagged for review |
| AgenticScorer.ScoreWithAgent | supabase/functions/score-pte-agentic/index.ts:284-285 | an agent fails with the gateway's error message or the parse error, and succeeds exactly when the gateway answered with a parsable JSON object; its total is then the reply's total capped at the maximum and its confidence the reply's or 0.85 (also lines 325-326 and 431-432) |
| AgenticScorer.WithMetadata | supabase/functions/score-pte-agentic/index.ts:182-186 | the result gets the type's maximum, its skill shares, and the percentage round(total / max * 100); it is flagged for review exactly for the review types at confidence below 0.8; the total, trait scores, feedback and confidence are kept |
| AgenticScorer.Handle | supabase/functions/score-pte-agentic/index.ts:134-219 | a missing key gives 500 with its message; a refused credit gives 402 with the daily-limit message; reading and deterministic listening types give 200 with the reading result as written plus metadata; other types give the agent's error as a 500 or 200 with its result plus metadata; errors store nothing; a row with the submission, user, total, maximum, percentage, confidence and "needs_review" or "completed" is stored exactly when a result exists and a non-empty submission id was given |
| MockSection.GetMaxScore | src/components/mocktest/MockTestSection.tsx:146-170 | the maximum is at least 1, and a type missing from the table gets 1 |
| MockSection.GetMaxScoreAgrees | src/components/mocktest/MockTestSection.tsx:147-168 | for every type the scoring function knows, the card's table gives the scoring function's maximum (supabase/functions/score-mocktest-ai/index.ts:91-112) |
| MockSection.TypeListsDisjoint | src/components/mocktest/MockTestSection.tsx:119-132 | no type is in two of the speaking, writing and reading lists, so the branches of the auto-submit (lines 106-116) cannot compete |
| MockSection.FormatTime | src/components/mocktest/MockTestSection.tsx:98-102 | the label is the minutes in digits, a colon and two digits of seconds, and its two fields read back as seconds / 60 and seconds % 60; under 100 minutes it is five characters |
| MockSection.SelectionSubmission | src/components/mocktest/MockTestSection.tsx:213-241 | the score is within the maximum; reorder submits the dragged order, out of the key's length, scoring the number of positions where it matches the key, and the key itself scores full marks; fill-in-the-blanks submits the filled answers, out of the number of blanks, scoring the blanks right ignoring case, and full marks come exactly when every blank is right ignoring case; choice questions submit the selection, out of the key's size, score the selections found in the key when as many are selected as the key holds and 0 otherwise, and score full marks exactly when every selection is in the key and there are as many of them |
| MockSection.SpeakingScore | src/components/mocktest/MockTestSection.tsx:184-190 | the random speaking score is at least half the maximum and at most the maximum |
| MockSection.WritingScore | src/components/mocktest/MockTestSection.tsx:198-210 | the score is within the maximum; inside the word limits it is at least 70% of the maximum, rounded; outside them, with some words, it is between 30% and 50%, rounded; with no words it is 0 |
| MockSection.WritingSubmission | src/components/mocktest/MockTestSection.tsx:192-211 | the submission is within the maximum, which is the type's; a blank answer submits nothing and scores 0; otherwise it submits the text with its word count and the writing score of that count against the question's word limits (or 50 and 300) |
| MockSection.SpeakingSubmission | src/components/mocktest/MockTestSection.tsx:184-190 | the recording is submitted at the type's maximum with at least half of it |
| MockSection.AutoSubmissions | src/components/mocktest/MockTestSection.tsx:104-117 | at most one submission, always within its maximum; none exactly for a question in none of the four classes; a speaking question without a recording submits nothing and scores 0, and with one submits `SpeakingSubmission`; a writing question submits `WritingSubmission` of the text; a reading or listening question submits `SelectionSubmission` of the selection, order and blanks |
| MockSection.Without | src/components/mocktest/MockTestSection.tsx:514 | the filtered selection no longer holds the key, and every other option keeps its number of copies |
| MockSection.WithoutAppend | src/components/mocktest/MockTestSection.tsx:514 | the filter keeps the order of what it keeps: filtering a concatenation filters each part and joins them |
| MockSection.WithoutOne | src/components/mocktest/MockTestSection.tsx:514 | a single option is dropped when it is the key and kept otherwise |
| MockSection.ToggleTwiceRestores | src/components/mocktest/MockTestSection.tsx:646-652 | clicking an unselected word twice leaves the selection as it was |
| MockSection.Moved | src/components/mocktest/MockTestSection.tsx:247-258 | the drop keeps the same paragraphs; an id not in the list changes nothing; otherwise the id lands at the target (or at the end) and the other paragraphs keep their order |
| MockSection.MovedInPlace | src/components/mocktest/MockTestSection.tsx:247-258 | dropping a paragraph on the position it holds leaves the order unchanged |
| MockSection.SectionState.constructor | src/components/mocktest/MockTestSection.tsx:36-74 | the first render has empty answers and the full time; a reorder question's dragged order is a permutation of its paragraph ids |
| MockSection.SectionState.Load | src/components/mocktest/MockTestSection.tsx:57-74 | a new question clears the answers and restarts the clock; the dragged order is replaced only for a reorder question; earlier submissions stay |
| MockSection.SectionState.SelectSingle | src/components/mocktest/MockTestSection.tsx:452 | picking a radio option makes it the only selection |
| MockSection.SectionState.ToggleOption | src/components/mocktest/MockTestSection.tsx:510-516 | ticking appends the option; unticking removes every copy of it |
| MockSection.SectionState.ToggleWord | src/components/mocktest/MockTestSection.tsx:646-652 | clicking word idx toggles the key "word-idx": it is selected afterwards exactly when it was not before |
| MockSection.SectionState.SetBlank | src/components/mocktest/MockTestSection.tsx:605-608 | typing into a blank sets that blank's answer and keeps the others |
| MockSection.SectionState.SetText | src/components/mocktest/MockTestSection.tsx:392 | typing sets the text answer |
| MockSection.SectionState.Drop | src/components/mocktest/MockTestSection.tsx:247-258 | the dragged order becomes the moved order |
| MockSection.SectionState.Report | src/components/mocktest/MockTestSection.tsx:23 | a submission within its maximum is appended to those handed to the parent |
| MockSection.SectionState.SubmitSelection | src/components/mocktest/MockTestSection.tsx:213-241 | the selection's submission is handed to the parent, and every reported score stays within its maximum |
| MockSection.SectionState.SubmitWriting | src/components/mocktest/MockTestSection.tsx:192-211 | the writing submission is handed to the parent |
| MockSection.SectionState.SubmitSpeaking | src/components/mocktest/MockTestSection.tsx:184-190 | the speaking submission is handed to the parent |
| MockSection.SectionState.FinishRecording | src/components/mocktest/MockTestSection.tsx:91-96 | a finished recording is submitted at once |
| MockSection.SectionState.AutoSubmit | src/components/mocktest/MockTestSection.tsx:104-117 | the auto-submission's zero or one submissions are handed to the parent |
| MockSection.SectionState.Tick | src/components/mocktest/MockTestSection.tsx:76-89 | at zero or below the clock auto-submits and stays at 0; otherwise it counts down one second and submits nothing |
| MockSection.CountSelectedCorrect | src/components/mocktest/MockTestSection.tsx:237 | the loop counts the selections found in the key |
| MockTestPage.SectionDurationsCoverTest | src/pages/MockTest.tsx:22-74 | the three section durations (77, 29 and 33 minutes) add up to the 8340-second test duration |
| MockTestPage.Matching | src/pages/MockTest.tsx:115-128 | the filter keeps only matching bank questions (the speaking bank also matches ignoring case) and never more than the bank holds; when every question matches it keeps the whole bank |
| MockTestPage.Tagged | src/pages/MockTest.tsx:134-141 | each selected question is pushed once, in order, tagged with its section, section name and time limit |
| MockTestPage.QuotaBlock | src/pages/MockTest.tsx:130-141 | a quota contributes min(count, matches) questions, each of its section, with the quota's time limit and the type of the corresponding match |
| MockTestPage.QuotaBlocks | src/pages/MockTest.tsx:112-142 | every question a section contributes is tagged with that section |
| MockTestPage.SectionBlocks | src/pages/MockTest.tsx:111-143 | every generated question is tagged with one of the plan's sections |
| MockTestPage.QuotaBlocksAtMost | src/pages/MockTest.tsx:130-132 | a section never contributes more questions than its quotas ask for |
| MockTestPage.SectionBlocksAtMost | src/pages/MockTest.tsx:108-146 | the test never has more questions than the plan's quotas add up to |
| MockTestPage.GenerateQuestions | src/pages/MockTest.tsx:107-146 | the mount effect's nested loops build exactly the section-by-section, quota-by-quota question list |
| MockTestPage.PushSection | src/pages/MockTest.tsx:112-142 | one section's quotas are pushed in order after the questions already generated |
| MockTestPage.PushQuota | src/pages/MockTest.tsx:130-141 | one quota's questions are pushed after the questions already generated |
| MockTestPage.SubmissionInRange | src/pages/MockTest.tsx:481 | every score the question card reports is an answer whose score lies between 0 and its maximum |
| MockTestPage.BucketName | src/pages/MockTest.tsx:270-272 | an essay or written summary taken in the speaking section is counted as writing, and every other answer in its own section |
| MockTestPage.AddTo | src/pages/MockTest.tsx:275-277 | one answer adds its score or 0 to the earned points, its maximum or 1 to the possible points and 1 to the count, and keeps a section in range |
| MockTestPage.Count | src/pages/MockTest.tsx:270-278 | exactly the section the answer is counted in grows by that answer, and every other section is unchanged |
| MockTestPage.InSection | src/pages/MockTest.tsx:270-274 | the answers counted in a section are answers of the list, each counted there, and all of them when all are |
| MockTestPage.Sum | src/pages/MockTest.tsx:275-277 | a section's count is the number of its answers, and answers in range add up to earned points within the possible |
| MockTestPage.TallySections | src/pages/MockTest.tsx:262-279 | each of the four section totals is the sum of exactly the answers counted in that section |
| MockTestPage.CountStep | src/pages/MockTest.tsx:269-279 | one answer adds one to exactly one bucket when its section is known and leaves the totals unchanged otherwise, and keeps every section's earned points within its maximum |
| MockTestPage.TallyCountsAll | src/pages/MockTest.tsx:269-279 | the tally counts at most one entry per answer, and every answer exactly when every answer belongs to one of the four sections |
| MockTestPage.TallyInRange | src/pages/MockTest.tsx:269-279 | answers in range add up to section totals whose earned points lie between 0 and the maximum |
| MockTestPage.TallyAnswers | src/pages/MockTest.tsx:269-279 | the answers loop computes the tally, whose sections hold the sums of their own answers (TallySections) |
| MockTestPage.PteScore | src/pages/MockTest.tsx:282-286 | an empty section scores 10; a fraction in range scores between 10 and 90; full marks give 90 and nothing earned gives 10 |
| MockTestPage.PteScoreFormula | src/pages/MockTest.tsx:282-286 | a non-empty section scores round(10 + earned / max * 80) |
| MockTestPage.MeanOfFour | src/pages/MockTest.tsx:299 | the rounded mean of four scores lies between the lowest and the highest |
| MockTestPage.ScoresWithLastAnswer | src/pages/MockTest.tsx:247-303 | with the answer just given counted, the completion scores one more answer and adds it to its own section |
| MockTestPage.FinalScoresOf | src/pages/MockTest.tsx:257-303 | the final scores count every answer and every question and report the time used; the overall is the rounded mean of the four section scores, so between the lowest and the highest; with answers in range every section and the overall lie on 10-90 |
| MockTestPage.FinalScoresBySection | src/pages/MockTest.tsx:262-292 | each section score is the 10-90 score of the answers counted in that section |
| MockTestPage.ScoresFromTotals | src/pages/MockTest.tsx:288-300 | each section score is the 10-90 score of its own total; the overall is the rounded mean of the four; the scores record the answered and question counts and the time used; with every total in range, each section and the overall lie on 10-90 |
| MockTestPage.LastAnswerDroppedAsWritten | src/pages/MockTest.tsx:247-303 | a one-question test answered with full marks scores, as the handler completes it, no answer and an overall of 10; with the answer counted it scores 1 answer and 30 |
| MockTestPage.TimeoutScoresNoAnswerAsWritten | src/pages/MockTest.tsx:148-165 | scoring the view the interval keeps from the start of the test gives 0 answered, 10 in every section and overall, and no time used |
| MockTestPage.FormatTime | src/pages/MockTest.tsx:174-183 | below an hour the label is "mm:ss" and reads back as the seconds; from an hour on it is "h:mm:ss" and reads back as the seconds |
| MockTestPage.ClockParts | src/pages/MockTest.tsx:175-177 | hours, minutes below 60 and seconds below 60 add back up to the seconds, and the hours are 0 exactly below an hour |
| MockTestPage.SectionIndexOf | src/pages/MockTest.tsx:220 | the index names the section with that id, or is -1 exactly when no section has it |
| MockTestPage.SkippedAnswer | src/pages/MockTest.tsx:237-245 | a skipped question records no answer and 0 points out of the question's maximum or 1, which is in range |
| MockTestPage.MockTestSession.constructor | src/pages/MockTest.tsx:92-105 | the page starts at the intro, at question 0 of section 0, with the full test clock, no answers and no scores, and its callbacks see no answers and the full clock |
| MockTestPage.MockTestSession.StartTest | src/pages/MockTest.tsx:185-190 | starting from the intro moves to testing, restarts the question clock, sets the section clock to the section's duration (lines 167-172) and starts the interval, whose callback sees the answers and clock of that moment (lines 148-165) |
| MockTestPage.MockTestSession.HandleTestComplete | src/pages/MockTest.tsx:257-303 | completing sets the phase to completed and the final scores to those of the answers and clock the calling closure sees |
| MockTestPage.MockTestSession.EndTest | src/pages/MockTest.tsx:455-461 | a confirmed "End Test" completes the test with the current answers and clock; otherwise nothing changes |
| MockTestPage.MockTestSession.EnterSection | src/pages/MockTest.tsx:166-225 | moving to a question of a different, known section makes that section current; the section clock restarts only during the test and only when the index actually changes, since the effect on the index does not run again for the same value; otherwise the section and its clock are kept |
| MockTestPage.MockTestSession.HandleAnswerSubmit | src/pages/MockTest.tsx:192-229 | with a current question, one answer is appended with the seconds spent; the index moves to the next question, switching section when the next question's section differs and restarting the section clock only when the section index actually changes (the effect on that index does not run again for the same value), and the handler is made again with the new answers; after the last question the test completes with the scores of the answers before this one and the clock of the render in which the index last changed |
| MockTestPage.MockTestSession.HandleSkipQuestion | src/pages/MockTest.tsx:231-255 | with a current question, a skipped answer is appended; the index moves on and the handler is made again with the new answers, or after the last question the test completes with the scores of the answers before the skip |
| MockTestPage.MockTestSession.Previous | src/pages/MockTest.tsx:499 | the previous button moves one question back, never below 0, and a changed index gives the handlers the current answers |
| MockTestPage.MockTestSession.Tick | src/pages/MockTest.tsx:148-165 | while testing and not paused, the section clock counts down to 0 and stops there; the test clock counts down, and at 0 the test completes with the answers and clock the interval saw when it started; otherwise nothing changes |
| ScoringLimit.CurrentCount | src/hooks/useScoringLimit.ts:86-94 | a stored record counts only on its own day; no record or a record of another day counts 0 |
| ScoringLimit.VisitorStep | src/hooks/useScoringLimit.ts:84-106 | a visitor's increment is accepted exactly below the limit of 5, and then stores today's count plus one and shows 5 minus it as remaining |
| ScoringLimit.UserStep | src/hooks/useScoringLimit.ts:108-155 | a signed-in increment is accepted exactly when the write succeeds and today's row is missing or below the limit; an existing row goes up by one with remaining max(0, 5 - count - 1); a new row starts at 1 with 4 remaining |
| ScoringLimit.VisitorRunFrom | src/hooks/useScoringLimit.ts:84-106 | from today's count c, the i-th further visitor increment succeeds exactly while c + i is below 5 |
| ScoringLimit.VisitorDailyAllowance | src/hooks/useScoringLimit.ts:84-106 | on a new day a visitor gets exactly five successful increments, and every later one is refused |
| ScoringLimit.UserRunFrom | src/hooks/useScoringLimit.ts:108-155 | from a row of count c, the i-th further signed-in increment succeeds exactly while c + i is below 5 |
| ScoringLimit.UserDailyAllowance | src/hooks/useScoringLimit.ts:108-155 | a signed-in user without a row for today gets exactly five successful increments, and every later one is refused |
| ScoringLimit.RemainingFromRow | src/hooks/useScoringLimit.ts:63-67 | the remaining attempts are never negative; no row gives 5, a row at or above the limit gives 0, and a row within the limit leaves count + remaining == 5 |
| ScoringLimit.ScoringLimitState.constructor | src/hooks/useScoringLimit.ts:15-17 | the hook starts with 5 remaining, loading and no reset date |
| ScoringLimit.ScoringLimitState.CanScore | src/hooks/useScoringLimit.ts:165 | scoring is allowed exactly while attempts remain |
| ScoringLimit.ScoringLimitState.FetchUsage | src/hooks/useScoringLimit.ts:23-74 | loading ends; an error thrown before any state is set (an unparsable stored entry, a failed user lookup) shows 5 and leaves the reset date and the stored entry as they were; otherwise today becomes the reset date, and a visitor's record of today gives 5 minus its count; a record of another day is reset to 0 and gives 5; no record gives 5; a signed-in lookup error gives 5; otherwise today's row decides the remaining attempts |
| ScoringLimit.ScoringLimitState.IncrementUsage | src/hooks/useScoringLimit.ts:80-160 | an error thrown on the way (an unparsable stored entry, a failed user lookup) returns false and changes nothing; otherwise the result is the visitor or signed-in step's acceptance; an accepted step stores the new count (in local storage or the table) and its remaining attempts; a refused step changes nothing |
| StudyPlanner.Find | src/components/dashboard/StudyPlanner.tsx:266-269 | a found row is a row of the progress for that skill; nothing is found exactly when no row has the skill |
| StudyPlanner.FindIsFirst | src/components/dashboard/StudyPlanner.tsx:266-269 | the row found is the first row of the skill |
| StudyPlanner.ScoreOf | src/components/dashboard/StudyPlanner.tsx:266-269 | a skill without a progress row scores 0 |
| StudyPlanner.ScoreOfFirstRow | src/components/dashboard/StudyPlanner.tsx:266-269 | a skill scores its first row's average score, or 0 when that is missing or 0 |
| StudyPlanner.SortByScore | src/components/dashboard/StudyPlanner.tsx:273 | the array ends sorted by score, ties kept in their earlier order (the sort is stable), and is a permutation of the array it started as |
| StudyPlanner.Rank | src/components/dashboard/StudyPlanner.tsx:265-270 | the position is below 4 exactly for the four skills, and names that skill in the initial order |
| StudyPlanner.Initial | src/components/dashboard/StudyPlanner.tsx:265-270 | four entries, one per skill in the order speaking, writing, reading, listening, each with its score |
| StudyPlanner.GetWeakAreas | src/components/dashboard/StudyPlanner.tsx:264-275 | the result lists each of the four skills once, ordered by score from lowest, skills of equal score in the initial order |
| StudyPlanner.NamesOfSorted | src/components/dashboard/StudyPlanner.tsx:273-274 | the skill names of any stably sorted permutation of the initial scores are the four skills in score order |
| StudyPlanner.QuestionTypesForSkill | src/components/dashboard/StudyPlanner.tsx:277-285 | an unknown skill gets no types; each of the four skills gets at least one |
| StudyPlanner.RecommendedTypesAreKnown | src/components/dashboard/StudyPlanner.tsx:277-285 | every recommended question type has a maximum score in the mock test's score table |
| StudyPlanner.SkillForDay | src/components/dashboard/StudyPlanner.tsx:227-228 | day i trains the weak area at i modulo their number, or speaking when there is none or it is empty; never the empty skill |
| StudyPlanner.GenerateStudyPlan | src/components/dashboard/StudyPlanner.tsx:211-238 | no plan exactly without a user, without an exam date or with no day to go; otherwise min(7, days to go) entries, entry i on day i, for the skill of day i, with that skill's types, ceil(5 x hours a day) target questions, none completed |
| StudyPlanner.PlanCyclesWeakAreas | src/components/dashboard/StudyPlanner.tsx:223-228 | with the four ranked skills, day i trains skill i mod 4, so the plan repeats every four days |
| StudyPlanner.CountdownOf | src/components/dashboard/StudyPlanner.tsx:95-110 | a past exam shows 0/0/0; otherwise hours below 24 and minutes below 60, and days, hours and minutes account for the time to go to within one minute |
| StudyPlanner.CountdownParts | src/components/dashboard/StudyPlanner.tsx:105-107 | the three floor divisions give hours below 24, minutes below 60 and a whole-minute remainder of the difference |
| StudyPlanner.WeakestFirst | src/components/dashboard/StudyPlanner.tsx:264-275 | when any skill is flagged weak (score below 50, lines 518-519), the first skill of the ranking is flagged weak too |
| StudyPlanner.FormFromGoal | src/components/dashboard/StudyPlanner.tsx:127-133 | a stored non-zero target, hours a day or days a week is kept, and a missing or zero one falls back to 79, 2 and 5; no field of the form is 0 |
| UserHistory.Transform | src/hooks/useUserHistory.ts:71-88 | an attempt keeps every field of its row, a null feedback becoming the empty list and a null analysis three empty lists |
| UserHistory.NewRow | src/hooks/useUserHistory.ts:117-131 | the inserted row carries the question, type, text, feedback and analysis, and each of the four scores rounded to the nearest integer |
| UserHistory.AttemptsByType | src/hooks/useUserHistory.ts:144-146 | the result holds exactly the attempts of that type and is no longer than the list |
| UserHistory.AttemptsByTypeAppend | src/hooks/useUserHistory.ts:144-146 | filtering keeps the order: the filter of two lists joined is the two filters joined |
| UserHistory.SumOverallBetween | src/hooks/useUserHistory.ts:150 | n scores between lo and hi sum to between n x lo and n x hi |
| UserHistory.AverageScore | src/hooks/useUserHistory.ts:148-152 | 0 without attempts, otherwise the mean overall score rounded to the nearest integer |
| UserHistory.AverageBetween | src/hooks/useUserHistory.ts:148-152 | the average of scores between lo and hi lies between lo and hi |
| UserHistory.MeanBetween | src/hooks/useUserHistory.ts:151 | a sum between n x lo and n x hi divided by n lies between lo and hi |
| UserHistory.RecentAttempts | src/hooks/useUserHistory.ts:154-156 | a prefix of the attempts, of the limit's length (10 by default) when the list is long enough; a negative limit drops that many from the end, as slice does |
| UserHistory.History.constructor | src/hooks/useUserHistory.ts:44-46 | the hook starts with no attempts, loading and no error |
| UserHistory.History.RowsOf | src/hooks/useUserHistory.ts:60-64 | a user with no rows has none |
| UserHistory.History.FetchAttempts | src/hooks/useUserHistory.ts:48-97 | loading ends; no user gives no attempts; a failed query keeps the attempts and records the error; otherwise the attempts are the user's rows, newest first, transformed |
| UserHistory.History.SaveAttempt | src/hooks/useUserHistory.ts:103-142 | without a user or on a failed insert nothing changes; otherwise the rounded row becomes the user's newest and, when the refetch succeeds, the attempts are that row followed by the user's earlier rows, each transformed |
| HistoryPanel.ScoreColor | src/components/speaking/HistoryPanel.tsx:20-26 | one of the five colours; the green one exactly from 79 and the red one exactly below 35 |
| HistoryPanel.ScoreLabel | src/components/speaking/HistoryPanel.tsx:28-34 | Excellent from 79, Very Good in [65, 79), Good in [50, 65), Fair in [35, 50), Needs Work below 35, each exactly |
| HistoryPanel.BandOf | src/components/speaking/HistoryPanel.tsx:20-34 | the band is the name's place in its list, or -1 exactly when it is not in the list |
| HistoryPanel.ColorAndLabelAgree | src/components/speaking/HistoryPanel.tsx:117-121 | the badge colour and the label of every score sit in the same band |
| HistoryPanel.NumberOrZero | src/components/speaking/HistoryPanel.tsx:85 | a missing duration counts 0, a present one its value |
| HistoryPanel.Durations | src/components/speaking/HistoryPanel.tsx:85 | one duration per attempt, in order |
| HistoryPanel.PracticeMinutes | src/components/speaking/HistoryPanel.tsx:85 | the minutes shown are the total seconds over 60 rounded to the nearest whole minute |
| HistoryPanel.MissingDurationsAddNothing | src/components/speaking/HistoryPanel.tsx:85 | attempts without a duration leave the total unchanged |
| HistoryPanel.TotalSecondsBetween | src/components/speaking/HistoryPanel.tsx:85 | durations between 0 and d seconds total between 0 and n x d |
| HistoryPanel.RecentList | src/components/speaking/HistoryPanel.tsx:17 | the newest twenty attempts at most, as a prefix of the list |
| Certificate.ScoreLevel | src/components/mocktest/MockTestCertificate.tsx:57-64 | one of the six levels: Expert from 85, Advanced in [79, 85), Proficient in [65, 79), Intermediate in [50, 65), Basic in [35, 50), Beginner below 35, each exactly |
| Certificate.LevelRank | src/components/mocktest/MockTestCertificate.tsx:57-64 | a level's rank names it in the list of levels, highest first |
| Certificate.ScoreLevelMonotone | src/components/mocktest/MockTestCertificate.tsx:57-64 | a higher score never gets a lower level |
| Certificate.ScoreLevelFloors | src/components/mocktest/MockTestCertificate.tsx:57-64 | each floor 85, 79, 65, 50, 35 reaches its level and one point below it gets the next level down |
| Certificate.ScoreColor | src/components/mocktest/MockTestCertificate.tsx:50-55 | success from 79, primary in [65, 79), warning in [50, 65), destructive below 50, each exactly |
| Certificate.SuccessColorMeansAdvanced | src/components/mocktest/MockTestCertificate.tsx:148-157 | the overall score is shown in the success colour exactly when its level is Expert or Advanced |
| Certificate.FormatTime | src/components/mocktest/MockTestCertificate.tsx:44-48 | for a non-negative time, "Hh Mm" with the whole hours and the minutes below 60 left over, which account for the time to within a minute |
| Certificate.SummaryMessages | src/components/mocktest/MockTestCertificate.tsx:203-220 | exactly one summary message shows: the excellent one from 79, the progress one in [65, 79), the practice one below 65 |
| Certificate.SkillEntries | src/components/mocktest/MockTestCertificate.tsx:81-86 | four entries, Speaking, Writing, Reading and Listening with their own scores, each at its place in the list |
| Certificate.Insert | src/components/mocktest/MockTestCertificate.tsx:224 | inserting an earlier-listed entry into a list sorted highest first keeps it sorted, with the entry added |
| Certificate.SortDescending | src/components/mocktest/MockTestCertificate.tsx:224 | the copy is sorted highest score first, ties in list order (the sort is stable), and is a permutation of the entries |
| Certificate.FirstAndLast | src/components/mocktest/MockTestCertificate.tsx:224-226 | in a sorted permutation the first entry precedes every entry and the last follows every entry |
| Certificate.StrongestAndWeakest | src/components/mocktest/MockTestCertificate.tsx:222-234 | the strongest skill has the highest score (the earliest listed on a tie) and the weakest the lowest (the latest listed on a tie) |
| WritingTest.WordCountBlank | src/components/writing/WritingTest.tsx:40 | an all-blank text has no words, and a text starting with a non-space has at least one |
| WritingTest.WordCountOfJoined | src/components/writing/WritingTest.tsx:40 | words joined by single spaces count one each |
| WritingTest.WordCountColor | src/components/writing/WritingTest.tsx:109-113 | destructive exactly below the minimum, warning exactly above the maximum (and not below the minimum), success exactly within the limits (line 41) |
| WritingTest.ScoreColor | src/components/writing/WritingTest.tsx:103-107 | success from 65, warning in [50, 65), destructive below 50, each exactly |
| WritingTest.WritingScreen.constructor | src/components/writing/WritingTest.tsx:35-38 | the screen starts writing, with no text, the full time limit and no score |
| WritingTest.WritingScreen.Load | src/components/writing/WritingTest.tsx:44-49 | a new question resets to writing with no text, its full time limit and no score |
| WritingTest.WritingScreen.SetText | src/components/writing/WritingTest.tsx:36 | typing replaces the text |
| WritingTest.WritingScreen.HandleSubmit | src/components/writing/WritingTest.tsx:66-72 | the scorer is called exactly when the text has at least the minimum words; then the phase is processing and the text is sent, otherwise nothing changes |
| WritingTest.WritingScreen.ScoreArrived | src/components/writing/WritingTest.tsx:75-93 | a score moves to results, is kept and is reported once with the submitted text; an error returns to writing with nothing reported |
| WritingTest.WritingScreen.HandleRetry | src/components/writing/WritingTest.tsx:96-101 | retrying clears the text and the score, restores the time limit and returns to writing |
| WritingTest.WritingScreen.Tick | src/components/writing/WritingTest.tsx:52-64 | outside writing or with no time left nothing changes; above one second the time goes down by one; at one second the time becomes 0 and the text is submitted as by the submit button |
| WritingTest.TimeoutWithTooFewWords | src/components/writing/WritingTest.tsx:52-69 | when time runs out on too short a text the screen stays in writing at 0 and a further tick calls nothing |
| PracticePage.OfType | src/pages/Index.tsx:27-28 | the filter holds exactly the bank's questions of that type and is no longer than the bank |
| PracticePage.OfTypeAppend | src/pages/Index.tsx:27-28 | the filter keeps the bank's order: the filter of two banks joined is the two filters joined |
| PracticePage.QuestionsFor | src/pages/Index.tsx:25-29 | no questions without a selected type; otherwise exactly the selected section's questions of that type |
| PracticePage.Page.constructor | src/pages/Index.tsx:18-22 | the page starts on speaking, with no type, at index 0, nothing completed, the panel closed and nothing saved |
| PracticePage.Page.Questions | src/pages/Index.tsx:25-29 | no questions without a selected type |
| PracticePage.Page.Current | src/pages/Index.tsx:31 | a current question exists exactly when the index is inside the list, and it is the question at the index |
| PracticePage.Page.SelectSection | src/pages/Index.tsx:79 | the section changes, and the type and index are kept |
| PracticePage.Page.SelectType | src/pages/Index.tsx:62-65 | the type is selected and the first question shown |
| PracticePage.Page.Back | src/pages/Index.tsx:157-161 | the Back button clears the type, so the list is empty and no question is shown, and keeps the index |
| PracticePage.Page.SetPanelOpen | src/pages/Index.tsx:100 | the question panel is open exactly as the sheet or the side button asks |
| PracticePage.Page.SelectQuestion | src/pages/Index.tsx:57-60 | the chosen index is shown and the panel closes; an index in the list shows that question |
| PracticePage.Page.Next | src/pages/Index.tsx:48-55 | before the last question the index goes up by one; at or after it the type is cleared and the index reset to 0; an index on a question stays on one |
| PracticePage.Page.Previous | src/pages/Index.tsx:186 | the index goes back by one, never below 0 |
| PracticePage.Page.Complete | src/pages/Index.tsx:33-46 | without a current question nothing changes; otherwise its id joins the completed set and, in the speaking section only, one attempt is saved with the duration or 0 |
| PracticePage.NextUntilCleared | src/pages/Index.tsx:48-55 | pressing next from a question walks to the end of the list and clears the type after max(1, questions left) presses, completing nothing |
| TranscribeAudio.StripPadding | supabase/functions/transcribe-audio/index.ts:20 | `atob` drops at most two trailing characters, and what is left is a prefix of the text |
| TranscribeAudio.DecodeGroupsLength | supabase/functions/transcribe-audio/index.ts:20-21 | unpadded base64 decodes to three bytes per group of four characters, and one fewer byte than characters for a final partial group |
| TranscribeAudio.Atob | supabase/functions/transcribe-audio/index.ts:20 | decoding succeeds exactly when the unpadded text is in the alphabet and its length is not 1 modulo 4; every well-formed padded text decodes |
| TranscribeAudio.FirstChunk | supabase/functions/transcribe-audio/index.ts:19 | the slice is the first chunkSize characters, or the whole text when shorter |
| TranscribeAudio.AfterChunk | supabase/functions/transcribe-audio/index.ts:19-28 | the first chunk followed by the rest is the text |
| TranscribeAudio.Chunks | supabase/functions/transcribe-audio/index.ts:18-29 | every chunk is non-empty and at most chunkSize long, and all but the last are exactly chunkSize long |
| TranscribeAudio.ChunksCover | supabase/functions/transcribe-audio/index.ts:18-29 | the chunks joined are the text |
| TranscribeAudio.ChunkedMatchesWhole | supabase/functions/transcribe-audio/index.ts:14-41 | with a chunk size that is a multiple of four, decoding chunk by chunk gives exactly what decoding the whole text gives, whenever that succeeds |
| TranscribeAudio.SplitDecode | supabase/functions/transcribe-audio/index.ts:19-20 | a decodable text cut after whole groups decodes as its two parts, one after the other |
| TranscribeAudio.ChunkingAcceptsInnerPadding | supabase/functions/transcribe-audio/index.ts:19-20 | padding inside the text is refused by a whole decode but accepted when it ends a chunk |
| TranscribeAudio.TotalLength | supabase/functions/transcribe-audio/index.ts:31 | the total is the length of all chunks joined |
| TranscribeAudio.BytesOf | supabase/functions/transcribe-audio/index.ts:21-25 | a new array holding the decoded bytes in order |
| TranscribeAudio.SetAt | supabase/functions/transcribe-audio/index.ts:36 | the chunk is copied to the offset and everything before it is kept |
| TranscribeAudio.DecodeChunks | supabase/functions/transcribe-audio/index.ts:18-29 | the loop fails exactly when decoding chunk by chunk fails, and otherwise keeps chunks whose join is that decoding |
| TranscribeAudio.Concatenate | supabase/functions/transcribe-audio/index.ts:31-38 | a new array holding the chunks joined in order |
| TranscribeAudio.ProcessBase64Chunks | supabase/functions/transcribe-audio/index.ts:14-41 | fails exactly when a chunk fails to decode, and otherwise returns a new array of the chunk-by-chunk decoding |
| TranscribeAudio.Transcribe | supabase/functions/transcribe-audio/index.ts:43-150 | a missing or empty audio field and a missing key fail with 500 and their messages; an undecodable chunk fails with 500; status 200 exactly when everything succeeds, with the trimmed transcription, successful unless it is the unclear-audio marker; a gateway failure keeps 429 or 402 with their messages and is otherwise 500 |

## Left out

- Calls to the model gateway and to the database, and `JSON.parse`, are not modelled. Their outcomes (status, reply text, decoded fields, rows, write failures, a throw caught by the scoring-limit hook) are parameters of the operations that use them.
- The prompt texts are not modelled.
- The `Math.random` draws for mock speaking and writing scores are a parameter `draw` in [0, 1).
- The shuffle of the reorder paragraphs in the question card is a permutation parameter.
- The shuffle of each question bank in `MockTestPage.GenerateQuestions` is taken as the identity, so the model fixes which questions are picked.
- Timers, effects and async ordering are not modelled. Each interval callback is one `Tick` call, and each handler runs atomically. What a callback of the mock test page sees of an earlier render is kept as a view of that render (`handlerView`, `timerView`); React state of the page is otherwise the current state.
- `MockSection.SectionState.Tick`: auto-submits with the current answer state. At run time the interval keeps the `handleAutoSubmit` of the render where the question changed.
- The pause flag of the mock test page is a field that starts false. No handler in src/pages/MockTest.tsx sets it, so no method changes it.
- `WritingTest.WritingScreen.Tick`: submits the text as it is at the tick. The source's timer effect, re-created on every change of the remaining time, submits the text its render saw, which can be up to one second older.
- `WritingTest.WritingScreen.ScoreArrived`: requires the processing phase. A reply arriving after a retry or a question change is not modelled.
- `Text.Lower` lower-cases ASCII letters only. Other Unicode case mappings of `toLowerCase` are not modelled.
- `TranscribeAudio.Atob`: `atob` also strips ASCII whitespace before decoding, and the model does not. The text of the `DOMException` it throws is not modelled; a failed decode is a 500 with a fixed message.
- `TranscribeAudio.ProcessBase64Chunks`: requires a positive chunk size. The handler always passes 32768, and a chunk size of 0 would never end the loop.
- The byte lengths of the decoded chunks are stated in `TranscribeAudio.DecodeGroupsLength` rather than on `DecodeGroups` itself.
- The `mimeType` format field and the audio payload sent to the gateway are not modelled.
- `Certificate.FormatTime`: the contract is stated only for non-negative seconds. The time used is never negative; for a negative time the function still computes the source's floor division.
- The stable sorts of `getWeakAreas` and of the certificate are modelled through each entry's position in the initial list. `Certificate.SortDescending` is an insertion sort on the copied list, not `Array.prototype.sort`'s algorithm.
- Dates are not modelled. Today's ISO date, the days until the exam and the milliseconds to the exam are parameters. Plan entries record their day as an offset from today.
- Local storage is a field of the scoring-limit state. The RPC that spends scoring credits in the agentic scorer is an outcome parameter; its atomicity is not modelled.
- `PracticePage.Page.Complete`: records the `saveAttempt` request rather than performing it. The writing section's `onComplete` passes no duration and saves nothing. Durations are whole seconds, the form `UserHistory.History.SaveAttempt` and the stored rows take; a fractional duration is not represented.
- Audio recording and playback, the `needsAudio` flags, toasts, navigation and the rendered markup are not modelled.
- `AgenticScorer.GuardsPartitionTypes`: the agentic scorer's `questionType` is one of its twenty-one types. A request naming any other string is not represented; supabase/functions/score-pte-agentic/index.ts:179 rejects it with a 500 "Unknown question type: <name>" after the credit is spent (lines 149-168).
- `SpeakingScorer.ParsedScores`: keeps the overall, content, fluency and pronunciation scores and the feedback list. Other fields of the reply, such as `detailedAnalysis`, are passed on untouched by the handler and are not modelled.
- `MocktestScorer.ParseType`: takes a string. A request without a `questionType` is not represented; its `questionType.includes` at supabase/functions/score-mocktest-ai/index.ts:494 would throw, and the catch at lines 147-162 would answer 500 with the error feedback.
- `MockTestPage.MockTestSession.HandleAnswerSubmit` and `HandleSkipQuestion` require a phase other than the intro: the question card and the skip button are rendered only off the intro screen (src/pages/MockTest.tsx:325, 486-524).
- The catch-all `catch` branches of the edge functions are modelled only where a listed failure reaches them. Exceptions from runtime type errors (a field of the wrong type in a reply) are not modelled.

## Findings

| source | as written | input that shows it | evidently intended | confidence | as-written member | corrected member |
|---|---|---|---|---|---|---|
| supabase/functions/score-mocktest-ai/index.ts:485-493 | an item absent from the correct order has index -1, so when it is followed by the first correct item, -1 + 1 == 0 counts as a correct pair | items ["x", "a", "b"] against the order ["a", "b"] score 2, above the maximum of 1 | count a pair only when the first item is in the correct order | not executed | AnswerCounting.ReorderAbsentItemOvercounts | AnswerCounting.ReorderCorrectedWithinMaximum |
| supabase/functions/score-pte-agentic/index.ts:351-361 | the same pair count, so an absent item followed by the first paragraph earns credit | ordered items ["x", "a"] against the answer ["a", "b"] score 1 where no pair is right | count a pair only when the first item is in the answer | not executed | AgenticScorer.ReorderCreditsMissingParagraph | AgenticScorer.CorrectedReorderWithinMaximum |
| supabase/functions/score-pte-agentic/index.ts:336-369, 392-393 | highlight_correct_summary and select_missing_word are routed to `scoreReading`, which has no case for them, so they always score 0 | a select_missing_word answer equal to the correct answer scores 0 of 1 | score them as single-answer multiple choice | not executed | AgenticScorer.SelectMissingWordNeverScores | AgenticScorer.CorrectedSingleAnswerFullMarks |
| src/pages/MockTest.tsx:247-303 | after the last question, `handleAnswerSubmit` calls the `handleTestComplete` of the render in which the question index last changed, whose `answers` do not hold the answer just appended, so the last answer (or skip at lines 231-255) is left out of the final scores | a one-question test answered with full marks shows overall 10 and 0 answered | include the answer just given: overall 30 and 1 answered | not executed | MockTestPage.LastAnswerDroppedAsWritten | MockTestPage.ScoresWithLastAnswer |
| src/pages/MockTest.tsx:148-165 | the interval, started when the phase becomes testing, keeps the `handleTestComplete` of that render, so when the clock runs out the test is scored with the answers and clock of the start: none, and no time used | any test left to run out of time shows 0 answered, 10 in every section and overall, and 0 seconds used | score the answers given and the time used when the clock ran out | not executed | MockTestPage.TimeoutScoresNoAnswerAsWritten | MockTestPage.FinalScoresBySection |
