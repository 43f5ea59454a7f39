# Verified model of the signal-to-decision core

Signals about a learner are claimed once, logged, merged into a versioned learner state under an
optimistic lock, and then judged by a policy. This project models that core in Dafny and proves what it
keeps. One module per component; `dafny verify dfyconfig.toml` checks all of it.

The parts, and how they hang together:

- **The state protocol.** `Protocol` is the asynchronous `applySignalsAsync` as a state machine: one step per
  port call, any number of writers, reads that may be stale, errors and lost answers at every call, one atomic
  conditional write. `ProtocolSafety` holds its invariant and what follows for every reachable state.
  `ProtocolProgress` says what a writer left to itself arrives at, and what a reported conflict had behind it.
  `AsyncReplay` puts the real state engine into it, with `Retouching` for what a first computation may leave in the
  payloads a second one starts from, and `LostUpdate` is a run of two writers in which an update
  is lost.
- **The synchronous engine.** `SignalLog`, `StateStore` and `StateEngine` are the classes over the SQLite tables
  and one call of `applySignals`. `Replay` says what the tables mean: one history of batches per learner, each
  version made from the version before. The engine's `Valid()` contains it, so it holds after any sequence of calls.
- **The state reducer.** `DeepMerge`, `Evidence`, `Aggregation` (with `Totals` and `Text`), `Deltas`, joined in
  `StateReducer`. `BatchOrder`, `DeltaPaths`, `StateMeaning` and `AggregationMeaning` say by path and by key what these
  read and write. Loops over an object's keys pick the keys in an arbitrary order, so every claim holds for
  every order of enumeration.
- **Reading histories.** `Trajectory`, `Paging`, `VersionPages`, `LearnerPages`, `HistoryPages`.
- **The policy.** `Policy` (structure check, short-circuit evaluation, first match), `Receipt` (the snapshot kept
  with a decision), `DecisionEngine` (one evaluation, and what is kept of it). `PolicyMeaning` says what each
  operator, compound and decision means by its spelling.
- **Transform expressions.** `TransformGrammar`, `TransformLexer`, `TransformParser`, `TransformPrinting`,
  `TransformExpression`: the one-pass parser and evaluator against syntax trees and their values. `TransformTokens`
  says what the tokens of a text are by their characters, `TransformMeaning` what each of them does.
- **Objects by reference.** `SharedObjects` (reading and writing by path where two paths may lead to one object),
  `Sharing` (which objects a series of writes shares, and what a further write then changes), `SharedText` (when
  such a payload can be written out). `Aliasing` models the merge on objects held by reference and shows what the
  payload-touching counter does to a retry.
- **Field mappings.** `FieldMappings` is the program: aliases put the very object they find under another path;
  `MappingMeaning` goes through its steps case by case.
  `MappingCopies` is the plain reading, in which they put copies. `MappingLaws` proves when the two agree, and what
  is kept in any case; `MappingLeaks` has the exact conditions for one alias and for one write, `MappingShapes` says
  for which mappings some payload shows the difference, and `MappingInputs` has such payloads.
- **Ingestion.** `Ingestion` (the synchronous handler over all of the above), `Pipeline` (the asynchronous handler
  as a state machine with the protocol inside), `PipelineProgress` (one worker from arrival to decision).

A key of a state *stands* (`Deltas.Stands`) when the delta passes do not write it as somebody's companion: every base
field does, and a key named like a companion does while its owner stands and is neither a number on both sides nor
gone. A mapping's run is *careful* (`Sharing.Careful`) when no write goes below a path that an earlier alias has shared
an object between, and no alias puts an object below itself.

Numbers in states are reals; expressions run over any arithmetic. JSON objects are finite maps, and a missing key
is `None`.

## What the proofs brought to light

- **Nulls in the merge.** The merge equals MergePatch of section 2 of RFC 7396, and is idempotent, exactly when it
  stores no source object that holds a null (`DeepMerge.IsMergePatch`, `DeepMerge.Idempotent`).
- **Lost updates.** The asynchronous engine computes from one read and takes its version from a later one. A commit
  whose two reads differ can drop a stored field without any conflict (`LostUpdate.UpdateIsLost`).
- **Counting touches payloads.** A first computation for a skill without an entry writes `evidenceCount` into the
  payload itself (`Aliasing.FirstComputation`); a recomputation then always arrives at 2, right only when the count
  found was 1 (`Aliasing.RetryCount`).
- **Identifiers.** `org:learner:vN` is unique across the table, so organisations with a colon in the name can block
  each other's versions (`StateIds.SameStateId`); the partition key `org#learner` collides likewise
  (`Pipeline.HashCollides`).
- **Empty rule ids.** The policy structure check lets the empty rule id through, and building the rationale fails
  exactly for such a rule (`DecisionEngine.SpeechlessExactly`).
- **Upload validation.** It sets every name to one, so `1 / (a - b)` is refused although it runs
  (`TransformExpression.RefusedThoughItRuns`).
- **Deltas.** A stored delta is missing exactly when an object stands under the companion's own key on both sides of
  the transition (`Trajectory.DeltaIsStored`).
- **Skills named like companions.** A skill such as `math_delta` is taken for the companion of `math`, and loses its
  entry and its count when `math` is a number on both sides or goes away (`StateReducer.CompanionNamedSkillIsLost`).
  Every skill that stands keeps its count, and one whose owner is itself rewritten keeps it or loses it
  (`StateReducer.StoredCount`).
- **Aliases share objects.** An alias stores the object it finds, not a copy. A later write below the canonical path
  then also shows below the candidate (`MappingInputs.AliasesLeak`, `MappingInputs.TransformLeaks`), exactly as
  `MappingLeaks.OthersKeptExactly` says. A candidate above its own canonical path builds a cycle: the signal is
  claimed, and writing it to the log fails (`MappingInputs.AliasCycles`, `MappingLeaks.TextAfterAliasExactly`,
  `Ingestion.Handler.Handle`). A mapping whose paths are separate is safe with every payload
  (`MappingLaws.SeparateIsCareful`, `MappingLaws.NormalizedAsCopied`), and that can be told when it is uploaded;
  `MappingShapes` has the other direction for mappings of one alias, two aliases, or an alias and a transform.
- **Aliases and loss.** The comment at src/config/tenant-field-mappings.ts:210 says that normalization only adds. An
  alias does so exactly when no value other than an object stands above its path (`MappingLeaks.AliasOnlyAdds`), and
  a transform may overwrite its target; the model follows the code.

## Model

| member | source | states |
|---|---|---|
| Json.GetAtPath | src/shared/dot-path.ts:11-19 | the cursor walk returns the value below the object at the path, undefined once it leaves the objects |
| Json.PartsOfJoined | src/shared/dot-path.ts:11-13 | keys without dots, joined by dots, are split into those keys again, however many |
| Json.PartsAppend | src/shared/dot-path.ts:11-13 | around a dot a path falls into the pieces of its two sides, empty pieces left out |
| Json.PartsAreKeys | src/shared/dot-path.ts:11-13 | the pieces of any path are keys without dots, and read like those keys joined |
| Json.GetSetBelow | src/shared/dot-path.ts:21-34 | reading at or below a written path reads from the written value |
| Json.GetSetElsewhere | src/shared/dot-path.ts:21-34 | every path incomparable with the written one keeps its value |
| Json.GetSetAbove | src/shared/dot-path.ts:21-34 | every proper prefix of a written path is an object afterwards |
| DeepMerge.Run | src/state/engine.ts:54-86 | the loop, over the keys in any order, computes the merge defined key by key |
| DeepMerge.IsMergePatch | src/state/engine.ts:54-86 | the merge is MergePatch if and only if it stores no source object holding a null |
| DeepMerge.NullFreeStoresNoNull | src/state/engine.ts:54-86 | a null-free source meets that condition over every target |
| DeepMerge.Idempotent | src/state/engine.ts:54-86 | merging the source again changes nothing if and only if the same condition holds |
| DeepMerge.NestedNullIsKept | src/state/engine.ts:75-82 | a concrete source that is kept with its null and loses it the second time |
| DeepMerge.SourceLeafIsRead | src/state/engine.ts:54-86 | every leaf of a null-free source is read back at its path |
| DeepMerge.OtherPathsAreKept | src/state/engine.ts:54-86 | every path incomparable with all source leaves keeps the target's value |
| ForbiddenKeys.DetectForbiddenKeys | src/ingestion/forbidden-keys.ts:116-148 | finds nothing if and only if no object reached through objects has a forbidden key; a find names a path that holds one |
| ForbiddenKeys.CleanExactly | src/ingestion/forbidden-keys.ts:116-148 | a value is clean if and only if no path in it ends in a forbidden key |
| ForbiddenKeys.BothListsCount | src/ingestion/forbidden-keys.ts:16-83 | a key is forbidden if and only if it stands in one of the two lists of 28 keys |
| ForbiddenKeys.CompanionsAreAllowed | src/ingestion/forbidden-keys.ts:16-83 | no key ending in `_delta` or `_direction` is forbidden |
| Deltas.ComputeNestedDeltas | src/state/engine.ts:93-124 | down to depth five every key that stands, at every level, keeps its value; companions of moved standing fields hold difference and direction, those of fields gone are gone; and any key at all is as it was, or a companion with a difference, a direction or nothing, or an object passed over likewise or left without its base numbers, even though the pass writes into the object it reads |
| Deltas.ComputeStateDeltas | src/state/engine.ts:140-184 | key by key what is stored: computed, removed or kept companions, every other key and the aggregation untouched, the nested frame below, and no forbidden key where there was none |
| Deltas.DeltasSameBase | src/state/engine.ts:140-184 | at every depth the passes change nothing but companions |
| DeltaPaths.SkillMetricMoves | src/state/engine.ts:93-124 | a number at `skills.<name>.<metric>` on both sides gets its difference and the word for its direction beside it |
| DeltaPaths.CompanionsInside | src/state/engine.ts:93-124 | so does every number from the second to the sixth key of a state |
| DeltaPaths.CompanionsTop | src/state/engine.ts:146-161 | and every number at the top level |
| DeltaPaths.UntouchedBelow | src/state/engine.ts:99-102 | what stands at the sixth key is stored as it is, so further down there are no companions |
| Evidence.IncrementSkillEvidenceCounts | src/state/aggregation.ts:67-112 | the loops, over skills in any order, count each signal once per skill it scores |
| Evidence.CountedConserves | src/state/aggregation.ts:67-112 | a count becomes what it was plus the number of signals carrying a score for the skill |
| Evidence.CountedElsewhere | src/state/aggregation.ts:67-112 | counting leaves every other key and every other member of a skill's entry as it was |
| StateMeaning.ScoresBySkill | src/state/aggregation.ts:77-97 | a payload scores a skill by a number at `skills.<skill>.masteryScore`, or by one at `masteryScore` when `skill` names it |
| StateMeaning.CountByPath | src/state/aggregation.ts:32-38 | a count is the number at `skills.<skill>.evidenceCount` rounded down, or zero |
| StateMeaning.CountIsWritten | src/state/aggregation.ts:100-110 | the new count is written at that path |
| Evidence.MergeKeepsCount | src/state/engine.ts:233-241 | payloads that neither set the count nor remove or replace the skill leave the count alone |
| Evidence.DeltasOnCount | src/state/engine.ts:140-184 | the delta passes keep a skill's count or leave none: they keep it if the skill stands, and leave none if it does not while its owner does |
| Evidence.DeltasOnEntry | src/state/engine.ts:93-184 | so for every numeric base field of a skill's entry; no other number takes its place |
| Evidence.PromotedExactly | src/state/engine.ts:192-208 | key by key: the two top-level scores become the dominant skill's when those are numbers, and every other key is as it was |
| Evidence.PromotedTwice | src/state/engine.ts:192-208 | promotion leaves the dominant skill's entry alone, and a second one changes nothing |
| StateMeaning.PromotesByPath | src/state/engine.ts:192-208 | the number at `skills.<skill>.<score>` goes to `<score>` for the skill that `skill` names, and for no other |
| StateReducer.ComputeNewState | src/state/engine.ts:218-253 | merge in order, count, promote, aggregate |
| BatchOrder.LastIsStored | src/state/engine.ts:233-237 | the last writer wins: what the last null-free payload of a batch to speak of a path says there is what is stored, away from counts, mirrored scores, the aggregation and companions |
| BatchOrder.NullIsGone | src/state/engine.ts:63-67 | a key that the last payload to mention it sets to null is gone from the stored state |
| BatchOrder.MergeAppend | src/state/engine.ts:233-237 | a batch merges as its first part and then the rest |
| StateReducer.ComputeState | src/state/engine.ts:319-328 | the state to store is the new state with its deltas against the prior one |
| StateReducer.NewStateClean | src/state/validator.ts:98-128 | from a clean state and clean payloads the new state passes the validator if and only if no scored skill and no resolved subject has a forbidden name |
| StateReducer.StoredStateClean | src/state/validator.ts:98-128 | closure: then the state with its companions passes too |
| StateReducer.ComputedAtVersion | src/state/aggregation.ts:226-235 | the stored aggregation names the version it was computed for |
| StateReducer.StoredCount | src/state/engine.ts:218-328 | after merge, counting, promotion, aggregation and deltas the stored count is the old one plus the signals that score the skill, or nothing; the former if the skill stands, the latter if it does not while its owner does |
| StateReducer.CompanionNamedSkillIsLost | src/state/engine.ts:93-124 | a prior state and a payload whose scored skill `math_delta` ends up without a count |
| StateReducer.StoredScoreMirrors | src/state/engine.ts:192-208 | in every stored state that names a dominant skill with a score, mastery or stability, the top-level score is that score |
| Totals.MeanBetween | src/state/aggregation.ts:19-22 | a mean lies between any bounds of its values |
| Totals.MeansClose | src/state/aggregation.ts:19-22 | means of pointwise close values are as close |
| Totals.RoundClose | src/learners/state-projection.ts:31-36 | rounding moves a number by no more than 0.00005 |
| Totals.RoundMonotone | src/learners/state-projection.ts:31-36 | rounding keeps order |
| Aggregation.ArithmeticMean | src/state/aggregation.ts:19-22 | none for no values, else their sum over their number |
| Aggregation.PickExtremeSkill | src/state/aggregation.ts:44-61 | the extreme score, ties to the lexicographically first id |
| Text.LessMeans | src/state/aggregation.ts:59 | one id comes before another where they first differ, by the smaller character or by ending there |
| Aggregation.ComputeLearnerAggregation | src/state/aggregation.ts:119-236 | the aggregation by its definition, or none when no skill has a score |
| AggregationMeaning.TableMeans | src/state/aggregation.ts:130-137 | a skill is aggregated if and only if its entry has a number for a score, with the values its entry holds |
| AggregationMeaning.AggregationIsWritten | src/state/aggregation.ts:226-235 | the aggregation is written under its four keys, and nothing else changes |
| AggregationMeaning.NothingToAggregate | src/state/aggregation.ts:124-142 | without a scored skill there is no aggregation, not even an older one |
| AggregationMeaning.SkillIsWritten | src/state/aggregation.ts:206-224 | which key of a skill carries which value |
| AggregationMeaning.SubjectIsWritten | src/state/aggregation.ts:168-181 | which key of a subject carries which value |
| AggregationMeaning.OverallIsWritten | src/state/aggregation.ts:195-204 | which key of the overall part carries which value |
| AggregationMeaning.RoundMeans | src/learners/state-projection.ts:31-36 | a rounded number has four digits after the point, and ties go up |
| AggregationMeaning.OwnSubjectWins | src/state/subject-config.ts:56-83 | the entry's own subject, trimmed, comes first |
| Text.TrimMeans | src/state/subject-config.ts:61-63 | trimming takes the white space at both ends, and all of it |
| Text.SpacesAre | src/config/transform-expression.ts:81-82 | the code points that count as white space |
| AggregationMeaning.ExplicitSubject | src/state/subject-config.ts:56-83 | then the explicit map |
| AggregationMeaning.PrefixRuleSubject | src/state/subject-config.ts:56-83 | then the first rule whose prefix the id begins with |
| AggregationMeaning.DefaultSubject | src/state/subject-config.ts:56-83 | then the configured default unless it is blank, and "General" in the end |
| Aggregation.SkillsArePartitioned | src/state/aggregation.ts:146-184 | each scored skill is listed under exactly its own subject |
| Aggregation.CountsAddUp | src/state/aggregation.ts:174-204 | the subjects' counts sum to the overall count |
| Aggregation.WeakestMeanStrongest | src/state/aggregation.ts:155-184 | rounded weakest, subject mean, rounded strongest are in order |
| Aggregation.OverallIsClose | src/state/aggregation.ts:186-204 | the overall mean is within 0.0001 of the mean of the unrounded subject means |
| Aggregation.AggregationUnique | src/state/aggregation.ts:119-236 | the result does not depend on any order of enumeration |
| Protocol.OrderedByIds | src/state/apply-signals-async.ts:42-45 | when nothing is missing the ordered records are the requested ids one for one |
| ProtocolSafety.NextKeepsInv | src/state/apply-signals-async.ts:47-226 | every step of every writer, also one that throws or loses an answer, keeps the invariant |
| ProtocolProgress.AppliesAlone | src/state/apply-signals-async.ts:57-187 | progress: with distinct ids, all records at hand and a valid result, a writer that nobody disturbs stores what is not recorded yet as the version after the current one, with an entry for each id |
| ProtocolProgress.HasCurrent | src/state/apply-signals-async.ts:113-114 | a partition always has a highest version, or none at all |
| ProtocolProgress.RefusedIsRetried | src/state/apply-signals-async.ts:185-203 | in every reachable state a writer whose first write met a taken version, with ids still unrecorded and a valid recomputation, ends with its signals applied if it is left to go on |
| ProtocolProgress.ConflictWasRefusedTwice | src/state/apply-signals-async.ts:204-214 | along every run, a reported version conflict has a refused write at the first attempt and a later one at the second behind it |
| ProtocolProgress.NothingToApply | src/state/apply-signals-async.ts:62-79 | when everything is recorded, the writer returns ok at the current version and stores nothing |
| ProtocolProgress.MissingIsUnknown | src/state/apply-signals-async.ts:81-95 | a record that cannot be found makes the writer give up without storing anything |
| ProtocolProgress.InvalidIsRejected | src/state/apply-signals-async.ts:120-123 | a result that does not pass the check is refused and nothing is stored |
| ProtocolProgress.InvalidRetryIsRejected | src/state/apply-signals-async.ts:193-196 | a recomputation that does not pass ends the retry |
| ProtocolProgress.PutInOrder | src/state/apply-signals-async.ts:39-43 | in whatever order the records come, they are put in the order of the ids |
| ProtocolSafety.VersionsAreContiguous | src/state/apply-signals-async.ts:147-171 | in every reachable state the versions of a partition are exactly 1 to the number of its transactions |
| ProtocolSafety.StoredIsImmutable | src/state/dynamodb-repository.ts:89-123 | along a run no row, entry or transaction changes or disappears |
| ProtocolSafety.AppliedOnce | src/state/dynamodb-repository.ts:89-123 | a signal id belongs to at most one transaction of a partition, and its entry names that version |
| ProtocolSafety.NothingTwice | src/state/dynamodb-repository.ts:89-123 | no transaction holds an id twice |
| ProtocolSafety.OkCommittedOnce | src/state/apply-signals-async.ts:170-187 | a writer that returned ok with ids committed exactly one transaction, with that row and all the entries |
| ProtocolSafety.ErrorCommittedNothing | src/state/apply-signals-async.ts:62-140 | a writer that returned errors, or ok with nothing to apply, committed nothing |
| ProtocolSafety.OkMeansRecorded | src/state/apply-signals-async.ts:57-82 | once a writer has returned ok, with or without something to apply, every id of its request is recorded |
| ProtocolSafety.CommitReplays | src/state/apply-signals-async.ts:113-208 | a commit of either attempt that was computed from the version its last read saw stores what the engine makes of the row before it |
| AsyncReplay.StoredStatesAreClean | src/state/apply-signals-async.ts:120-123 | with the real engine every stored state passes the validator |
| AsyncReplay.StoredStatesReplay | src/state/apply-signals-async.ts:113-208 | with the real engine that is what merge, counting, promotion, aggregation and deltas make of the version before and the payloads, at the second attempt of the payloads as the first may have retouched them |
| Retouching.CountedInIsRetouched | src/state/aggregation.ts:100-110 | a payload that a first computation has counted in is retouched: it differs at most in counts of skills and in companions |
| Retouching.RetouchedTally | src/state/aggregation.ts:67-112 | retouched payloads score the same base-named skills as often as the logged ones |
| LostUpdate.UpdateIsLost | src/state/apply-signals-async.ts:113-148 | with the real engine, a reachable state in which a first-attempt commit is not a reduction of the version before and drops the field that one held |
| Aliasing.MergeSharesEntry | src/state/engine.ts:66-82 | the state's entry for a payload's skill is the payload's own object if and only if the prior state had none |
| Aliasing.FirstComputation | src/state/aggregation.ts:100-110 | the first computation writes a count into the payload exactly in that case |
| Aliasing.RetryCount | src/state/apply-signals-async.ts:187-203 | recomputed from the touched payload the count is two; it is right if and only if the count found was one |
| SignalLog.SqliteSignalLogRepository.AppendSignal | src/signalLog/store.ts:57-82 | appends the record, or refuses a second one of the same organisation and id |
| SignalLog.SqliteSignalLogRepository.GetSignalsByIds | src/signalLog/store.ts:153-208 | the selected records, or which of the two errors, unknown before out of scope |
| SignalLog.SelectedHolds | src/signalLog/store.ts:160-168 | the selection is the organisation's records with a requested id, each once, by time of acceptance |
| SignalLog.GetSignalsByIdsInChunks | src/signalLog/dynamodb-repository.ts:112-138 | chunks of a hundred together find every requested record, or fail if and only if one is missing |
| StateStore.SqliteStateRepository.GetState | src/state/store.ts:92-104 | the learner's row with the highest version |
| StateStore.CurrentIsHighest | src/state/store.ts:92-104 | no row if and only if the learner has none, else the highest of its rows |
| StateStore.SqliteStateRepository.SaveStateWithAppliedSignals | src/state/store.ts:142-185 | row and entries together, or nothing when the identifier or the version is taken |
| StateIds.SameStateId | src/state/engine.ts:258-260 | two identifiers are equal if and only if the versions are and the joined names are |
| StateIds.DigitsMean | src/state/engine.ts:258-260 | versions are written in decimal without leading zeros |
| StateIds.NoColonNoCollision | src/state/engine.ts:258-260 | without colons in organisation names identifiers are unique |
| StateIds.ColonCollides | src/state/store.ts:49-60 | two learners that share an identifier |
| StateEngine.Engine.ApplySignals | src/state/engine.ts:271-429 | which outcome a call has, case by case; when applied, the identifier was free and there is one new version from exactly the selected batch; otherwise nothing changes; the history stays a replay |
| StateEngine.ValidExactly | src/state/validator.ts:15-96 | a request is refused if and only if a name is blank or there is no id |
| StateEngine.ToApplyAppend | src/state/engine.ts:283-290 | the ids to apply keep the order of the request |
| StateEngine.Engine.SaveWithRetry | src/state/engine.ts:343-417 | the save succeeds if and only if no other learner holds the identifier; the second attempt meets the same conflict |
| StateEngine.CleanBatchOutcome | src/state/engine.ts:271-429 | a valid request for something new, logged, clean and allowed by name is applied if and only if the next identifier is free, and a version conflict if and only if it is taken |
| Replay.GoodAppend | src/state/engine.ts:343-385 | a commit that follows its learner's history keeps both tables what the history makes of them |
| Replay.StateIsFold | src/state/engine.ts:319-385 | the state of version v is the fold of the first v batches from the empty state |
| Replay.AggregationNamesItsVersion | src/state/engine.ts:243-250 | `computed_at_version` is the row's version |
| Replay.StoredDeltasTelescope | src/state/engine.ts:146-161 | over versions a to b of a learner the stored deltas of a numeric field add up to the difference of its ends |
| Replay.EvidenceIsNumberOfSignals | src/state/aggregation.ts:67-112 | over a run the count is the number of distinct applied signals that score the skill, for every skill whose count and owners the payloads leave alone |
| Trajectory.BuildVersions | src/state/trajectory-handler-core.ts:143-164 | per version each field's value or null, and its direction when it is one of the three |
| Trajectory.BuildSummary | src/state/trajectory-handler-core.ts:166-204 | first, latest, number and direction of the numeric values |
| Trajectory.SummaryMeans | src/state/trajectory-handler-core.ts:166-204 | the count, the first and the last number, and the word for the way from first to last |
| Trajectory.NumbersAppend | src/state/trajectory-handler-core.ts:166-182 | the numbers of a field are taken in the order of the versions |
| Trajectory.NumbersOfOne | src/state/trajectory-handler-core.ts:166-182 | a version contributes its number or nothing |
| Trajectory.DeltaIsStored | src/state/engine.ts:146-161 | the difference is stored if and only if no object survives under the companion's key |
| Trajectory.DirectionIsStored | src/state/engine.ts:146-161 | the direction likewise |
| Trajectory.DeltaLostToAnObject | src/state/engine.ts:171-181 | two payloads, applied one after the other, whose second version lacks its delta |
| Trajectory.DeltasTelescope | src/state/engine.ts:146-161 | over any history of a numeric base field the stored deltas sum to last minus first, whatever the payloads carry |
| Trajectory.OverallDirectionIsSignOfSum | src/state/trajectory-handler-core.ts:188-193 | the overall direction is the sign of that sum |
| Paging.OrderedByHolds | src/state/store.ts:229-240 | a query holds exactly the matching rows, in ascending order |
| Paging.AfterIsRest | src/state/store.ts:229-240 | asking for what comes after the k-th row gives exactly the rest |
| Paging.ClampMeans | src/state/store.ts:225 | a limit is kept between one and the most |
| VersionPages.GetStateVersionRange | src/state/store.ts:217-253 | one page: the first rows after the cursor, at most a hundred, and the next cursor |
| VersionPages.PageAndRest | src/state/store.ts:246-252 | with a next cursor the rest is what it leads to, without one there is no rest |
| VersionPages.CollectAllStateVersions | src/learners/summary-handler-core.ts:297-320 | exactly the first thousand versions, or all |
| VersionPages.ReadAllPages | src/learners/summary-handler-core.ts:297-320 | following the cursors until there is none ends and has then read the whole range |
| VersionPages.VersionsHold | src/state/store.ts:217-253 | the pages hold each version of the range exactly once, ascending |
| HistoryPages.PagesAreHistory | src/learners/summary-handler-core.ts:297-320 | over the engine's store all pages together are the learner's history |
| LearnerPages.ListLearners | src/state/store.ts:271-321 | one page of latest versions, and a cursor if and only if there are more |
| LearnerPages.ListAll | src/state/store.ts:271-321 | following the cursors ends and gives the whole listing |
| LearnerPages.ListingHolds | src/state/store.ts:281-303 | each learner's latest version exactly once, by time descending and reference ascending |
| Policy.ValidateConditionNode | src/decision/policy-loader.ts:333-384 | accepts exactly the well-shaped condition trees |
| PolicyMeaning.LeafAccepted | src/decision/policy-loader.ts:347-359 | a leaf needs a text for a field, one of the six operators and a scalar |
| PolicyMeaning.CompoundAccepted | src/decision/policy-loader.ts:361-383 | a compound is nothing else besides and has two children or more, all accepted |
| PolicyMeaning.KindAccepted | src/decision/policy-loader.ts:333-346 | a node is exactly one of the three kinds |
| Policy.ValidateRules | src/decision/policy-loader.ts:390-459 | accepts exactly rules with distinct ids, known decisions and valid conditions |
| PolicyMeaning.RuleAccepted | src/decision/policy-loader.ts:390-459 | a rule needs an id that no rule before it has, one of the four decisions and an accepted condition |
| Policy.ValidRulesWellFormed | src/decision/policy-loader.ts:333-459 | accepted rules have a leaf in every compound and distinct ids |
| Policy.EvaluateConditionCollecting | src/decision/policy-loader.ts:475-532 | the short-circuit walk agrees with plain and/or meaning and collects the leaves looked at |
| PolicyMeaning.FiniteLeaf | src/decision/policy-loader.ts:492-517 | `gt`, `gte`, `lt` and `lte` compare the two numbers as they say |
| PolicyMeaning.InfiniteLeaf | src/decision/policy-loader.ts:492-517 | and so with an infinite side |
| PolicyMeaning.NaNLeaf | src/decision/policy-loader.ts:500-501 | they are false when a side is no number |
| PolicyMeaning.EqualityLeaf | src/decision/policy-loader.ts:487-491 | `eq` is equality with the threshold, `neq` its opposite |
| PolicyMeaning.UndefinedIsFalse | src/decision/policy-loader.ts:485 | over an undefined field every operator is false |
| PolicyMeaning.CompoundMeans | src/decision/policy-loader.ts:519-531 | `all` holds when every child does, `any` when one does |
| PolicyMeaning.CompoundEvidence | src/decision/policy-loader.ts:519-531 | a compound's evidence is that of its children in order, up to and with the one that settles it |
| PolicyMeaning.RuleMeans | src/decision/policy-loader.ts:390-459 | rules keep their order, ids, conditions and decisions, each decision by its spelling |
| Policy.EvidenceSuffices | src/decision/policy-loader.ts:475-532 | any state that shows the collected values gives the same outcome and the same evidence |
| Policy.EvidenceNotEmpty | src/decision/policy-loader.ts:475-532 | a condition with leaves always leaves evidence |
| Policy.EvaluatePolicy | src/decision/policy-loader.ts:747-771 | the first rule that holds, with its evidence, or no match if and only if none holds |
| Receipt.CollectPolicyFields | src/decision/engine.ts:50-62 | exactly the fields of the condition's leaves |
| Receipt.ExtractCanonicalSnapshot | src/decision/engine.ts:69-85 | at every path: the state's value at or below a named field, objects on the way, nothing else, for overlapping fields in any order |
| Receipt.ReceiptReplay | src/decision/engine.ts:69-85 | on the snapshot the same rule is the first to match as on the state, or none |
| Receipt.SnapshotLeaf | src/decision/engine.ts:69-85 | every leaf of the snapshot lies at or below a named field and is the state's value there |
| Receipt.SnapshotUnique | src/decision/engine.ts:69-85 | the order of copying does not matter |
| DecisionEngine.DecisionEngine.EvaluateState | src/decision/engine.ts:103-236 | which outcome an evaluation has, case by case; a decision is kept if and only if one is returned |
| DecisionEngine.DecidedExactly | src/decision/engine.ts:103-236 | a request that names the current version is decided if and only if there is a policy, a rule of it matches, and the first that does has a rationale |
| DecisionEngine.FindPriority | src/decision/engine.ts:182-186 | one plus the index of the first rule with the id |
| DecisionEngine.PriorityIsFirstMatch | src/decision/engine.ts:182-186 | for a valid policy that is the place of the first rule whose condition holds |
| DecisionEngine.SpeechlessExactly | src/decision/engine.ts:35-44 | for a valid policy the rationale fails if and only if the first match has the empty id |
| DecisionEngine.EmptyRuleIdPasses | src/decision/policy-loader.ts:441-447 | a concrete policy that passes the structure check and fails so |
| DecisionEngine.DecisionReplays | src/decision/engine.ts:164-236 | a kept decision is reproduced from its own snapshot |
| DecisionEngine.ContextIsClean | src/decision/engine.ts:188-198 | the context check never fails |
| TransformLexer.Tokenize | src/config/transform-expression.ts:76-132 | the loop computes the tokens of the text, or the first forbidden character |
| TransformTokens.LexExactly | src/config/transform-expression.ts:76-132 | the tokens found are these if and only if the text is made of their spellings, each read in full, with white space in between |
| TransformTokens.LexStuckExactly | src/config/transform-expression.ts:129 | the tokenizer fails at a character if and only if that is the first that begins no token |
| TransformTokens.NumbersAreRead | src/config/transform-expression.ts:85-90 | any digits, and any digits, point and digits, are one number |
| TransformTokens.NamesAreRead | src/config/transform-expression.ts:110-115 | any letter or underscore followed by letters, digits and underscores is one name |
| TransformTokens.ReadInFull | src/config/transform-expression.ts:76-132 | a token is read in full before the end or anything that does not belong to it, without a space |
| TransformTokens.WellFormedExactly | src/config/transform-expression.ts:85-127 | the tokens that have a spelling are those that may be printed, and it is theirs |
| TransformLexer.LexRender | src/config/transform-expression.ts:76-132 | round trip: printed tokens are read back |
| TransformParser.Parser.Evaluate | src/config/transform-expression.ts:158-164 | the parser object computes the one-pass meaning of the whole token list |
| TransformParser.Parser.ParseAdd | src/config/transform-expression.ts:166-174 | sums, left to right, from the current position |
| TransformParser.Parser.ParseMul | src/config/transform-expression.ts:176-187 | products and quotients, left to right |
| TransformParser.Parser.ParseUnary | src/config/transform-expression.ts:189-195 | one unary minus at most |
| TransformParser.Parser.ParsePrimary | src/config/transform-expression.ts:197-250 | literals, names, calls and parentheses |
| TransformGrammar.RunsTree | src/config/transform-expression.ts:158-250 | completeness: on the tokens of a tree the result is the tree's value or failure |
| TransformGrammar.RunsExactlyTheGrammar | src/config/transform-expression.ts:158-250 | success with v if and only if the tokens are those of a tree of the grammar with value v |
| TransformMeaning.SumsMean | src/config/transform-expression.ts:166-174 | a plus adds the product after it to all before it, a minus takes it away |
| TransformMeaning.ProductsMean | src/config/transform-expression.ts:176-187 | a star multiplies all of the product before it, a slash divides it and fails by zero |
| TransformMeaning.OperandsMean | src/config/transform-expression.ts:189-250 | a minus in front negates, parentheses group, numbers are literals, names are looked up |
| TransformMeaning.CallsMean | src/config/transform-expression.ts:205-240 | the three functions, each on its arguments |
| TransformMeaning.ScaledText | src/config/transform-expression.ts:291-304 | from text to value: a name, an operator without spaces and a decimal fraction, such as `value*0.01` |
| TransformPrinting.PrintedIsRead | src/config/transform-expression.ts:158-250 | every tree printed with minimal parentheses runs to its value |
| TransformPrinting.Unambiguous | src/config/transform-expression.ts:158-250 | two trees of the grammar with the same tokens are the same tree |
| TransformPrinting.MinimalSum | src/config/transform-expression.ts:158-250 | no other way of writing a tree has fewer tokens than the printed one |
| TransformExpression.ValidateTransformExpression | src/config/transform-expression.ts:274-288 | what the upload validator accepts |
| TransformExpression.EvaluateTransform | src/config/transform-expression.ts:291-304 | the value of the text, or why there is none |
| TransformExpression.AcceptedExactly | src/config/transform-expression.ts:254-288 | accepted if and only if the text is in the grammar, uses allowed names, and no divisor is zero when every name is one |
| TransformExpression.Progress | src/config/transform-expression.ts:254-304 | an accepted expression, run with any numbers, fails only by division by zero or a non-finite result |
| TransformExpression.PrintedEvaluates | src/config/transform-expression.ts:291-304 | from tree to text to number: the tree's value |
| TransformExpression.PrintedAccepted | src/config/transform-expression.ts:254-288 | a printed tree is accepted if and only if no divisor is zero at one |
| TransformExpression.RefusedThoughItRuns | src/config/transform-expression.ts:253-288 | `1 / (a - b)` is refused though it runs |
| SharedObjects.WalkAtPath | src/shared/dot-path.ts:11-19 | the cursor walk over references is the lookup by path |
| SharedObjects.WriteAtPath | src/shared/dot-path.ts:21-34 | the loop writes into the objects it finds on the way and into new ones where there are none |
| SharedObjects.WriteThenWalk | src/shared/dot-path.ts:21-34 | when one path only leads to the changed object, a write shows at and below its path, makes objects above it, and leaves every other path alone |
| Sharing.PutKeeps | src/config/tenant-field-mappings.ts:249-339 | a write that stays out of what the run has shared leaves every incomparable path alone |
| Sharing.PutShows | src/config/tenant-field-mappings.ts:249-339 | a careful write makes the graph read like the payload with a copy put in |
| SharedText.TextExactly | src/signalLog/store.ts:57-82 | an object is written out as a value if and only if that is the value it shows |
| FieldMappings.ApplyAliases | src/config/tenant-field-mappings.ts:251-271 | alias by alias: left alone, given the object or value of the one candidate present, or reported as ambiguous |
| FieldMappings.AliasPuts | src/config/tenant-field-mappings.ts:253-263 | a missing canonical path gets the one candidate present, by reference |
| FieldMappings.AliasAmbiguous | src/config/tenant-field-mappings.ts:264-270 | two candidates present are reported and nothing is written |
| MappingMeaning.AliasLeaves | src/config/tenant-field-mappings.ts:252-258 | a canonical path that is filled, or has no candidate, is left alone |
| MappingMeaning.AliasesInOrder | src/config/tenant-field-mappings.ts:251-252 | the aliases are applied in their order |
| MappingMeaning.BindMeans | src/config/tenant-field-mappings.ts:281-299 | each name of a rule stands for the number at its source |
| MappingMeaning.RuleMisses | src/config/tenant-field-mappings.ts:281-327 | the first missing source skips the rule, and is an error in a strict mapping |
| MappingMeaning.RulesInOrder | src/config/tenant-field-mappings.ts:273-274 | so are the rules |
| MappingMeaning.BindNames | src/config/tenant-field-mappings.ts:281-299 | a rule has no variables besides those of its sources |
| MappingMeaning.SourcesMean | src/config/tenant-field-mappings.ts:273-280 | named sources come before a single one, and a rule with neither does nothing |
| MappingMeaning.FilledMeans | src/config/tenant-field-mappings.ts:341-355 | a required path must hold something other than null and blank text |
| MappingMeaning.TypedMeans | src/config/tenant-field-mappings.ts:357-369 | a typed path that holds something holds a text, a number, a truth value or an object, as the type says |
| FieldMappings.ApplyRules | src/config/tenant-field-mappings.ts:273-339 | rule by rule: skipped, missing source, failed or written |
| FieldMappings.CheckRequired | src/config/tenant-field-mappings.ts:341-355 | no new error if and only if every required path is present and not blank |
| FieldMappings.CheckTypes | src/config/tenant-field-mappings.ts:357-369 | no new error if and only if every typed path that is present has its type |
| FieldMappings.NormalizeAndValidate | src/config/tenant-field-mappings.ts:212-376 | accepts the rewritten object graph if and only if it was rewritten without error, is filled and typed; the errors of rewriting are among those reported |
| FieldMappings.AliasErrorsReject | src/config/tenant-field-mappings.ts:264-270 | an ambiguous alias rejects the payload, whatever the transforms do |
| MappingLaws.NormalizedAsCopied | src/config/tenant-field-mappings.ts:249-376 | a careful run reads like the run on copies at every path, is accepted or rejected as it is, and is logged as its payload |
| MappingLaws.SeparateIsCareful | src/config/tenant-field-mappings.ts:249-339 | a mapping none of whose targets lies below an earlier alias's paths, and no candidate above its canonical path, is careful with every payload |
| MappingLaws.RuleWrites | src/config/tenant-field-mappings.ts:302-336 | in a careful run a rule with its sources there has its result read back at its target, or its failure is reported and nothing is written |
| MappingLaws.OtherPathsAreKept | src/config/tenant-field-mappings.ts:249-339 | while no write goes below a canonical path that holds a shared object, every path incomparable with all writes keeps its original value |
| MappingLaws.MappingKeepsOtherPaths | src/config/tenant-field-mappings.ts:249-339 | a mapping with no target below an earlier canonical path does so with every payload |
| MappingLeaks.AliasFillsExactly | src/config/tenant-field-mappings.ts:253-263 | what is read at and below the canonical path is what the candidate had, if and only if that was no object above the canonical path |
| MappingLeaks.TextAfterAliasExactly | src/config/tenant-field-mappings.ts:253-263 | the payload can be written out after an alias if and only if the same holds |
| MappingLeaks.OthersKeptExactly | src/config/tenant-field-mappings.ts:249-339 | after an alias and a plain write all incomparable paths keep their values, if and only if the write does not change the shared object |
| MappingLeaks.WriteShowsExactly | src/config/tenant-field-mappings.ts:249-339 | a plain write into any graph that reads like a payload acts as on a copy, if and only if no second path leads to the object it changes, or it changes nothing |
| MappingLeaks.AliasOnlyAdds | src/config/tenant-field-mappings.ts:208-211 | filling a path, undefined or null, only adds if and only if no value other than an object stands above it |
| MappingShapes.TransformStraysExactly | src/config/tenant-field-mappings.ts:249-339 | a mapping of one alias and one transform at separate places changes, with some payload, a path aimed at by neither, if and only if the target lies strictly below the canonical path |
| MappingShapes.AliasStraysExactly | src/config/tenant-field-mappings.ts:249-271 | so for two aliases and the second canonical path |
| MappingShapes.AliasCyclesExactly | src/config/tenant-field-mappings.ts:249-271 | an alias makes some payload impossible to write out if and only if a candidate lies strictly above the canonical path and no other candidate at or above that one |
| MappingInputs.AliasesLeak | src/config/tenant-field-mappings.ts:251-263 | two aliases and a payload after which `data.score`, nobody's target, is written |
| MappingInputs.TransformLeaks | src/config/tenant-field-mappings.ts:263-336 | an alias and a transform that do the same |
| MappingInputs.AliasCycles | src/config/tenant-field-mappings.ts:251-263 | an alias that puts an object below itself, so that it cannot be logged |
| FieldMappings.AcceptedRuleRuns | src/config/tenant-field-mappings.ts:281-338 | a rule accepted at upload, with its sources there, fails only by division by zero or a non-finite result |
| Ingestion.SqliteIdempotencyRepository.CheckAndStore | src/ingestion/idempotency.ts:28-47 | claims a new key; for a claimed one changes nothing and gives the first time |
| Ingestion.Handler.Handle | src/ingestion/handler-core.ts:64-234 | rejected exactly for a forbidden key or a mapping not passed, duplicate exactly for a claimed key, both changing nothing; failing after the claim exactly when the normalised payload has no text; else claims, logs that payload, applies exactly that signal whenever nothing speaks against it, and keeps a decision on the new version exactly when the policy speaks |
| Ingestion.Handler.Process | src/ingestion/handler-core.ts:162-221 | a signal with a valid request, a clean result and a free identifier is applied, as the whole batch of the new version; a decision follows from the row just stored if and only if a rule matches and the first match has a rationale |
| Ingestion.AppliedIsLogged | src/ingestion/handler-core.ts:162-180 | every applied signal is logged for its organisation and learner |
| Ingestion.ContextByKey | src/ingestion/handler-core.ts:196-210 | the decision context takes `skill` and `assessment_type` from the payload and `school_id` from the envelope |
| Pipeline.NextKeepsInv | src/ingestion/handler-core-async.ts:161-231 | every step of every worker, the state protocol's included, keeps the containment invariant |
| PipelineProgress.DecidesAlone | src/ingestion/handler-core-async.ts:161-231 | progress: a new signal with a valid result is claimed, logged, applied as the version after the current one and decided upon, if its worker is left to go on |
| Pipeline.AppliedIsLogged | src/ingestion/handler-core-async.ts:161-231 | at every point of every run an applied signal has a logged, claimed record of that partition |
| Pipeline.BatchesAreLogged | src/state/apply-signals-async.ts:82-95 | every transaction wrote exactly one signal, with the payload that is logged |
| Pipeline.StatesAreMadeOfLoggedSignals | src/ingestion/handler-core-async.ts:161-204 | with the real engine, a version computed from the one before it is what the engine makes of that and the logged payload, at the second attempt of that payload retouched |
| Pipeline.AppliedIsLoggedForLearner | src/ingestion/handler-core-async.ts:161-231 | without hash signs in organisation names, of that organisation and learner |
| Pipeline.NoHashNoCollision | src/state/dynamodb-repository.ts:107-112 | without hash signs partition keys tell learners apart |
| Pipeline.HashCollides | src/state/dynamodb-repository.ts:107-112 | with one they need not |
| Pipeline.LoggedIsClaimed | src/ingestion/handler-core-async.ts:161-178 | every logged signal is claimed, by exactly one worker |
| Pipeline.ResubmissionStep | src/ingestion/handler-core-async.ts:161-174 | a resubmission of a claimed signal changes neither claims, log, state nor decisions |
| Pipeline.ResubmissionStaysOutside | src/ingestion/handler-core-async.ts:161-174 | and no continuation of the run lets it get past the claim |
| Pipeline.StepGrows | src/ingestion/handler-core-async.ts:161-231 | a step only adds to claims, log and decisions and moves one worker |
| Pipeline.DecisionsWithinClaims | src/ingestion/handler-core-async.ts:205-231 | no two decisions for one signal, so decisions never outnumber claims |
| Pipeline.DecisionsAreAboutStoredStates | src/decision/engine-async.ts:32-54 | every decision is for a logged and applied signal and about a row that is stored exactly as it was judged |

## Left out

- ProtocolSafety.CommitReplays: goes one way only, since a commit over two different versions may by chance still equal a reduction.
- ProtocolProgress.AppliesAlone: is about a writer that nobody disturbs and whose calls succeed, as are `ProtocolProgress.RefusedIsRetried` and `PipelineProgress.DecidesAlone`; nothing is said of fairness among writers.
- ProtocolProgress.ConflictWasRefusedTwice: a refused write is one that stored nothing; the store also cancels a transaction for a concurrent one, so a condition of the write need not have failed.
- BatchOrder.LastIsStored: leaves out paths below `skills` with fewer than three keys, where counting may put an entry in place of a value; `StateMeaning.CountIsWritten` says what stands there.
- AsyncReplay.StoredStatesReplay: how a first computation may retouch payloads is stated (`Retouching.Retouched`) and, by reference, derived from the program for one payload and one skill only (`Aliasing.FirstComputation`, `Retouching.CountedInIsRetouched`); which of the possible counts a payload is left with is open.
- Aliasing.FirstComputation: is about one named skill, not the set of scored skills or the passes after counting.
- The merge, the counting and the delta passes outside `Aliasing` work on values: what is written in place is the returned value, and sharing matters only where `Deltas` (the nested pass reading what it writes) and `Aliasing` say so.
- Objects in field mappings are held in an explicit store of references rather than in classes: a write gives a new store. `Number(x)` of an object is taken not to depend on what the object holds (`MappingLaws.ObjectsAlike`), which leaves out an object with a `valueOf` or `toString` member of its own.
- MappingLeaks.OthersKeptExactly: is exact for one alias and one plain write; for a whole mapping `MappingLaws.OtherPathsAreKept` goes one way, since a write through a shared object may by chance store what was there, and `MappingLeaks.WriteShowsExactly` is exact for each plain write of a run.
- MappingLaws.SeparateIsCareful: goes one way for mappings at large, where other aliases may keep one from ever firing; `MappingShapes` is exact for mappings of one alias, of two, and of an alias and a transform.
- StateReducer.StoredStateClean: goes one way only, since a companion may overwrite a forbidden value; for the state before companions `NewStateClean` is exact.
- Deltas.ComputeNestedDeltas: says of companions whose owner is itself written by the pass only what may become of them, not which; that depends on the order of keys.
- Evidence.DeltasOnCount: leaves open, for a skill whose owner is itself written as a companion, whether the count is kept or lost, for the same reason.
- StateEngine.Engine.SaveWithRetry: leaves open, for a batch that is not clean and whose identifier is taken, which of the two errors is reported, and recomputes from payloads the first computation has not touched.
- SignalLog.GetSignalsByIdsInChunks: takes every batch request to answer all its keys; unprocessed keys, or an id twice in one chunk, make the code fail with every record present.
- Keys with dots, keys that look like array indices, and prototype keys such as `__proto__`: objects are plain finite maps.
- Floating point: scores are reals, so rounding error of binary fractions, infinities and NaN inside states are not modelled; `Number(x)` is a parameter.
- Strings are compared character by character over Unicode scalars, where JavaScript compares UTF-16 code units.
- The envelope validator, the semantic-version check and the other text fields of a policy, and the date formats: the model starts from parsed, typed requests.
- The wording of errors and rationales, educator summaries and explanations, identifiers and clock readings: opaque values or parameters.
- The policy and mapping lookups with their caches, files and DynamoDB tables: the policy, the mapping and the subject configuration are parameters.
- `evaluateStateAsync` is `evaluateState` over port calls; `Pipeline` keeps its read, its staleness guard and its save but leaves open which policy outcome follows, which `DecisionEngine` states for the synchronous form.
- Protocol.StartStep: of the request check only the empty list of ids is modelled; blank names never reach a port call.
- Paging of the signal log, decisions and ingestion log, and the ingestion log itself: their order is by time while the cursor is the row id, so completeness needs an assumption about the data.
- Admin policy uploads, sessions, keys and signatures, HTTP and Lambda wrappers, the dashboard and the infrastructure code.
- The learner and trajectory endpoints' parameter checks: they only restrict what the modelled functions are called with.
