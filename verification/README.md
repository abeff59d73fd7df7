# Receiver journal and certification pipeline

A Dafny model of Observable Agent Workflow Memory: the receiver journal with its two-phase use protocol,
and the pipeline that certifies a memory before a receiver may rely on it.

`dafny verify dfyconfig.toml` checks everything.

## What is modelled

**The journal** (`Wire`, `Rational`, `Native`, `Models`, `Canonical`, `Journal`, `JournalLaws`, `Store`, `Chains`,
`Meaning`). Parsed JSON and the limits put on it, cost strings, the registered primitive with its independent
checker, the closed records of the sidecar, and the hash-chained event log. `replay` is a loop that is proved
against a fold; the fold has the laws (concatenation, first occurrences, redelivery, growth). `Meaning` reads the
rows without replaying them: which entry may follow which, and what each part of the state holds. A digest is a
free constructor over the value it was taken of, and so are the digests cut short inside event ids; `Canonical`
shows that the text which is digested determines the value.

**The receiver runtime** (`Eligibility`, `Agreement`, `Retrieval`, `Runtime`, `Receiver`). Each transaction is a
function of the rows and the host that it finds; `Receiver.ReceiverRuntime` carries the transactions out on an
event table and is proved to do what the functions say. The legacy tables and the pinned native packages are a
value, `Host`, that may change between any two transactions. `use` is two transactions, `Reserve` and
`Execute`.

**The protocol** (`Protocol`, `Steps`, `Uses`, `Safety`, `Revocation`, `Settlement`, `Effects`, `Completion`,
`Calls`). A state machine whose actions are the transactions of any number of callers in any order, changes of the
host, and crashes between or inside the two transactions of a use. The tool may come to anything; its calls are
logged. The results hold in every run: `Protocol.Reached` says that a system and a state are those after a run, and
`Chains.Replays` that rows can be stored and replay to a state. `Calls` says of each call when it succeeds and
which rows it adds.

**Certification** (`Records`, `Evidence`, `Tables`, `Plans`, `Pipeline`, `Kernel`, `Growth`, `Certification`,
`Origins`). Each kernel operation is a plan: the list of single writes it makes before it returns or raises.
`Kernel.AgentKernel` and `Kernel.SQLiteStorage` do the plans step by step. Ids and digests are free constructors
over what they digest; unused ids need no assumption, because the unique keys of the tables refuse a taken one.
`Outcomes`, `Promotions` and `Verdicts` say of each operation when it goes through and what it leaves.

**Several kernels** (`Races`, `Rechecks`, `Overtaking`, `Permanence`, `Histories`). The writes of any number of
running operations interleave one by one, and any of them may stop for good. `Races.Played` stands for any
interleaving.

**One kernel** (`Lanes`, `Lifecycle`, `Revival`, `Transitions`). One operation after another, each cut after any
write. `Certification.Reached` stands for any such run, `Lanes.CleanlyReached` for one that cuts no retirement
of a repeatable candidate.

## Findings

Paths are under `src/observable_agent_workflow_memory/`.

- Evidence that passes all checkers is the manifest that the pipeline builds exactly if every resource cap is a
  plain integer (`adapters/jsonschema_checker.py:248-269`): a boolean or a numeric string is digested as it stands
  when evidence is built but as an integer when it is checked (`Evidence.AcceptedEvidenceIsBuilt`,
  `Evidence.BooleanCapAccepted`). A proposal takes such a cap, `runtime/kernel.py:235-236`
  (`Lifecycle.BooleanCapProposal`).
- `retire` moves the record before it adds its event (`runtime/kernel.py:438-449`). When the event is lost, a
  candidate that nobody has touched since its proposal can be proposed again over its tombstone and certified
  (`Revival.LostRetirement`). With one kernel this is the only way back: `Revival.ComesBackIff` and
  `Revival.RetirementUndoneIff` say exactly when.
- With several kernels a promotion, which reads the record at `runtime/promotion.py:114` and writes it at
  `runtime/promotion.py:141`, can write over a retirement that it has not seen (`Overtaking.RetirementOvertaken`).
  What is certified is still proven. Revocation is for good exactly when the run of the memory has changed since
  its proposal and no running operation has such a write left (`Permanence.ReturnsIff`); only operations that read
  the tables before the revocation have one, beside the proposals above (`Overtaking.ThreatsReadEarlier`).
- An answer of more than 4096 characters is never recorded (`qualified/runtime.py:237-269`): the tool has run,
  neither attempt nor outcome is left, and the qualification and input stay closed
  (`Completion.OverlongAnswerInEveryRun`). `Completion.UseCommitsIff` says exactly which uses complete.
- A promotion certifies its memory before it looks at the memories to supersede (`runtime/promotion.py:141-152`). If
  one of these is neither certified nor superseded the promotion raises, and its own memory stays certified without
  an event (`Promotions.PromotionHalfDone`). So ends the promotion of a verified correction of a memory that is
  neither (`Promotions.CorrectionHalfPromoted`).
- `verify` does not consult the transition table (`runtime/promotion.py:87-110`), so a failed verification
  quarantines from any lane (`Transitions.VerifyObeysTableIff`).
- The strict audit (`runtime/kernel.py:573-613`) runs the candidate checkers on the record in its present lane, so
  it fails for the passing receipt of every promoted memory (`Rechecks.StrictRecheckByLane`).
- A redelivery counts toward the limit of 256 events, `qualified/store.py:17-18` (`JournalLaws.Redelivery`).

Event times are not assumed to increase, and nothing is assumed about which tool calls return.

## Model

| member | source | states |
|---|---|---|
| `Wire.Traverse` | src/observable_agent_workflow_memory/qualified/wire.py:37-48 | the stack-driven traversal stops, and accepts exactly the trees of depth at most 24 with at most 50,000 nodes, whatever the visiting order |
| `Wire.Pairs` | src/observable_agent_workflow_memory/qualified/wire.py:22-28 | the hook refuses exactly the objects that repeat a key and otherwise keeps every member |
| `Wire.RunHooks` | src/observable_agent_workflow_memory/qualified/wire.py:22-34 | hooks on all objects, innermost first, refuse exactly the trees in which some object repeats a key |
| `Wire.Loads` | src/observable_agent_workflow_memory/qualified/wire.py:18-48 | accepted exactly when bytes, keys, depth and node count are within their limits; the value comes back unchanged |
| `Wire.AcceptedSubtree` | src/observable_agent_workflow_memory/qualified/wire.py:37-56 | acceptance passes from a tree to every subtree at any level, text length included |
| `Wire.AcceptedPrefix` | src/observable_agent_workflow_memory/qualified/wire.py:18-56 | acceptance of an encoded list passes to its prefixes and bounds its rows taken together |
| `Wire.FewestBytes` | src/observable_agent_workflow_memory/qualified/wire.py:19 | the byte limit counts each character by the fewest UTF-8 bytes that hold its code point |
| `Canonical.EncodeOnce` | src/observable_agent_workflow_memory/qualified/wire.py:51-64 | two values have one canonical text exactly when they are the same value: strings, numbers and nesting are read back in one way, so a digest can stand for what was digested |
| `Canonical.EntryTold` | src/observable_agent_workflow_memory/qualified/wire.py:63-187 | the text that is digested leaves nothing of an entry out: equal texts mean the same kind, the same data field by field, the same time, and ids and digests that print the same |
| `Rational.ExactIffCanonicalPrint` | src/observable_agent_workflow_memory/qualified/wire.py:77-89 | accepted cost strings are exactly the prints of non-negative reduced fractions with 128-bit parts |
| `Rational.ParsePrint` | src/observable_agent_workflow_memory/qualified/wire.py:82-85 | parsing the print of a fraction in lowest terms gives the fraction back, negative ones included |
| `Rational.EqualRationalsEqualStrings` | src/observable_agent_workflow_memory/qualified/wire.py:77-89 | two accepted strings denote equal rationals exactly when they are the same string |
| `Rational.PrintFitsLimit` | src/observable_agent_workflow_memory/qualified/wire.py:80-81 | the 81-character limit never rejects a canonical print: at most 39+1+39 characters |
| `Native.CheckedIffNormalized` | src/observable_agent_workflow_memory/qualified/native.py:33-52 | the checker is sound and complete: it passes exactly the complete, successful, registered operations whose output is the normal form of the input, empty texts and single empty lines included |
| `Native.NormalizeIdempotent` | src/observable_agent_workflow_memory/qualified/native.py:33-36 | normalizing twice is normalizing once |
| `Native.NormalizeNeverLonger` | src/observable_agent_workflow_memory/qualified/native.py:33-36 | the output is never longer than the input, so normalizing it again is never refused |
| `Native.NormalizeDependsOnLines` | src/observable_agent_workflow_memory/qualified/native.py:33-36 | two texts have one normal form exactly when they have the same set of lines, no line and one empty line counting alike |
| `Native.SplitLinesJoin` | src/observable_agent_workflow_memory/qualified/native.py:36 | `splitlines` undoes a line-feed join of line-free pieces, unless the last piece is empty |
| `Native.SplitAtSeparator` | src/observable_agent_workflow_memory/qualified/native.py:36 | whatever follows, a line ends at each of the ten single breaks, listed one by one, and at a carriage return with a line feed taken together; what comes after is split alone |
| `Native.SplitUnbroken` | src/observable_agent_workflow_memory/qualified/native.py:36 | text without any of these breaks is one line |
| `Native.IncreasingUnique` | src/observable_agent_workflow_memory/qualified/native.py:45-52 | distinctness, the set of lines and adjacent order together determine the list of lines |
| `Basics.LessMeans` | src/observable_agent_workflow_memory/qualified/native.py:45-52 | one text is before another exactly when it is a proper prefix of it or has the smaller character at the first difference |
| `Models.DigestEntry` | src/observable_agent_workflow_memory/qualified/wire.py:63-64 | digesting an entry raises exactly when its encoding is outside the limits of `loads`; the digest names that entry only |
| `Models.DigestList` | src/observable_agent_workflow_memory/qualified/wire.py:63-64 | the same for a list of entries |
| `Models.FitsListParts` | src/observable_agent_workflow_memory/qualified/wire.py:51-64 | a list that can be digested has only prefixes and entries that can be digested, and rows within the byte limit |
| `Models.ValidIdIff` | src/observable_agent_workflow_memory/qualified/wire.py:13 | an id is valid exactly when its text has 1 to 120 characters, each a letter, a digit, an underscore, a dot, a colon or a hyphen |
| `Models.ValidQualificationIff` | src/observable_agent_workflow_memory/qualified/wire.py:71-165 | a qualification validates exactly when names, digests, times, short lists without repetition, sources and costs are within their bounds |
| `Journal.StepSound` | src/observable_agent_workflow_memory/qualified/store.py:34-147 | one accepted turn of the replay loop keeps every link, verdict, index and payment in order and undoes nothing recorded |
| `JournalLaws.FoldConcat` | src/observable_agent_workflow_memory/qualified/store.py:34-147 | replaying a list and then another is replaying their concatenation, failures included |
| `JournalLaws.FoldExtends` | src/observable_agent_workflow_memory/qualified/store.py:44-145 | later entries leave every cost, block, withdrawal, intent, attempt, outcome, verdict and service as recorded |
| `JournalLaws.ReplayFirstOccurrences` | src/observable_agent_workflow_memory/qualified/store.py:32-43 | replay of an accepted list equals replay of its first occurrences |
| `JournalLaws.ReplayUnique` | src/observable_agent_workflow_memory/qualified/store.py:147-154 | the unique entries of a replayed state replay to that state |
| `JournalLaws.Redelivery` | src/observable_agent_workflow_memory/qualified/store.py:17-43 | a redelivered entry changes nothing while the list is under 256 entries, against which it counts; the same id with other content is always refused |
| `JournalLaws.ChainedIsNew` | src/observable_agent_workflow_memory/qualified/store.py:36-43 | an entry whose parent is the present revision is never taken for a redelivery |
| `JournalLaws.RevisionDeterminesState` | src/observable_agent_workflow_memory/qualified/store.py:148 | equal revisions have equal states |
| `Meaning.LegalIff` | src/observable_agent_workflow_memory/qualified/store.py:44-146 | an entry applies exactly when the rows before it say so: which costs, admissions, intents, attempts, answers and checks must be there, and which must not |
| `Meaning.StoredIff` | src/observable_agent_workflow_memory/qualified/store.py:16-154 | rows can be stored exactly when there are at most 256, they can be digested, and each has valid fields, the rows before it as parent, an id of its own and a legal body |
| `Meaning.BlocksRead` | src/observable_agent_workflow_memory/qualified/store.py:56-71 | a block is on record exactly when some row is an invalidation with its fields, or the check of a received answer other than the normal form of the input, with the artifact, context, input, time and id of that use; timeouts, unknown outcomes and allegations make none |
| `Meaning.BlocksGrow` | src/observable_agent_workflow_memory/qualified/store.py:104-139 | each row adds the one block that it makes, at the end, or none |
| `Meaning.AdmissionsRead` | src/observable_agent_workflow_memory/qualified/store.py:51-55 | qualifications are listed in the order of their first admission |
| `Meaning.ListsRead` | src/observable_agent_workflow_memory/qualified/store.py:56-78 | withdrawals, allegations and exposures are listed in the order of their rows, each as it was recorded with its time and id |
| `Meaning.IntentsRead` | src/observable_agent_workflow_memory/qualified/store.py:79-86 | an intent is on record exactly as a row under its identity states it |
| `Meaning.OutcomesRead` | src/observable_agent_workflow_memory/qualified/store.py:95-103 | an outcome is on record exactly as a row states it |
| `Meaning.VerdictsRead` | src/observable_agent_workflow_memory/qualified/store.py:104-127 | the verdict of a check is that the answer was received and is the normal form of the input |
| `Meaning.ServiceIff` | src/observable_agent_workflow_memory/qualified/store.py:140-144 | a use is a service exactly when it was reconciled and its received answer is the normal form of its input |
| `Meaning.CostsRead` | src/observable_agent_workflow_memory/qualified/store.py:46-50 | a cost is on record exactly as a row states it, with its unit or without |
| `Store.ReplayEntries` | src/observable_agent_workflow_memory/qualified/store.py:16-154 | the loop over entries succeeds exactly when the fold does and fills the same dictionary and indexes |
| `Store.EventTable.Entries` | src/observable_agent_workflow_memory/qualified/store.py:157-166 | rows are returned as stored exactly when total size, count and every row are within the limits |
| `Store.EventTable.AppendBatch` | src/observable_agent_workflow_memory/qualified/store.py:219-233 | the batch is inserted and the new revision returned as `Append` specifies; a refusal leaves the table untouched |
| `Store.AppendReadable` | src/observable_agent_workflow_memory/qualified/store.py:157-233 | a successful append leaves rows that can always be read back, that extend the old rows, and that replay to exactly the state append computed |
| `Store.AppendInserts` | src/observable_agent_workflow_memory/qualified/store.py:224-232 | the insert loop leaves exactly the unique entries of the computed state |
| `Store.AtMostOneAppend` | src/observable_agent_workflow_memory/qualified/store.py:219-233 | of appends against one expected revision at most one adds entries, whatever was appended in between |
| `Store.ReplayReadable` | src/observable_agent_workflow_memory/qualified/store.py:148-166 | what replays can be read back: total length, count, entry sizes and field bounds hold |
| `Chains.StoredAt` | src/observable_agent_workflow_memory/qualified/store.py:34-147 | each stored entry is applied to the state that the rows before it replay to |
| `Chains.FactsGrow` | src/observable_agent_workflow_memory/qualified/store.py:44-145 | the state of any prefix of the rows is kept in the state of every longer prefix |
| `Chains.AppendChained` | src/observable_agent_workflow_memory/qualified/store.py:219-239 | a batch of events chained to the rows is appended whole, nothing in it is skipped as a duplicate |
| `Eligibility.Decide` | src/observable_agent_workflow_memory/qualified/eligibility.py:104-159 | the view is eligible exactly when all conditions hold, lists the reasons in order otherwise, the message of a failed premise included, and carries every field of the report; only the time bound raises |
| `Eligibility.DependencyStatusIff` | src/observable_agent_workflow_memory/qualified/eligibility.py:154-156 | the reported dependency status is withdrawn exactly when a dependency is, or when the word occurs in the id of a covering block or in the message of a failed premise |
| `Eligibility.NoReasonIffEligible` | src/observable_agent_workflow_memory/qualified/eligibility.py:112-144 | no reason is listed exactly when the qualification is eligible |
| `Eligibility.ReasonListedIff` | src/observable_agent_workflow_memory/qualified/eligibility.py:112-137 | each of the seven kinds of reason is listed exactly when its own condition fails, written out; an invalidation for every covering block, with its id, and the message of the premise that failed |
| `Eligibility.ReasonsOrdered` | src/observable_agent_workflow_memory/qualified/eligibility.py:112-137 | reasons are listed in the order in which the conditions are looked at, none but invalidations twice |
| `Eligibility.ReportMeans` | src/observable_agent_workflow_memory/qualified/eligibility.py:138-159 | what the report says beside the reasons, field by field |
| `Eligibility.ViewAgreement` | src/observable_agent_workflow_memory/qualified/checker.py:14-49 | the separately written check accepts exactly the finished view of an admitted qualification that the decision finds eligible |
| `Agreement.StoredAdmittedValid` | src/observable_agent_workflow_memory/qualified/store.py:51-55 | every qualification on record in a stored journal passed its field bounds |
| `Agreement.JudgementsAgree` | src/observable_agent_workflow_memory/qualified/checker.py:14-49 | on every stored journal both judgements define the same relation |
| `Agreement.RetrievedViewsAccepted` | src/observable_agent_workflow_memory/qualified/runtime.py:74-84 | every view that retrieval returns passes the check on the same journal, host, input and time |
| `Retrieval.Rank` | src/observable_agent_workflow_memory/qualified/runtime.py:85-95 | sort and reversed-dictionary pass leave one view per memory, the one that expires last and is earliest among equals, strictly ordered by (query mismatch, memory id) |
| `Retrieval.Retrieve` | src/observable_agent_workflow_memory/qualified/runtime.py:71-99 | returned views are the ranking of the eligible views, cut to the limit; the excluded ones are, position by position in admission order, exactly the qualifications that are not eligible, each once, marked as such, with the reasons that it has |
| `Retrieval.ExcludedByPosition` | src/observable_agent_workflow_memory/qualified/runtime.py:74-84 | every qualification that is not eligible, outside its validity or for any other reason, is excluded once and in order |
| `Retrieval.EligibleByPosition` | src/observable_agent_workflow_memory/qualified/runtime.py:74-84 | every eligible one is ranked once and in order, with the promoted claim |
| `Retrieval.RetrievalShows` | src/observable_agent_workflow_memory/qualified/runtime.py:85-95 | each view shown is of the eligible qualification of its memory that expires last, the earliest admitted among equals; hits come first, then memory ids in order; no memory twice, and no more than the limit |
| `Retrieval.RetrievalMisses` | src/observable_agent_workflow_memory/qualified/runtime.py:85-95 | an eligible qualification whose memory is not shown has the limit used up by views all above its own; if it is shown, nothing earlier to expire is shown for it |
| `Retrieval.BestIsLatest` | src/observable_agent_workflow_memory/qualified/runtime.py:85-92 | what is kept of a memory: nothing of it expires later, and nothing as late comes earlier |
| `Retrieval.RankingUnique` | src/observable_agent_workflow_memory/qualified/runtime.py:85-95 | the ranking of given views is one list |
| `Retrieval.NoEligibleMemoryMissing` | src/observable_agent_workflow_memory/qualified/runtime.py:74-95 | with the limit not reached every memory with an eligible qualification is shown, with the latest expiry |
| `Receiver.MakeEvent` | src/observable_agent_workflow_memory/qualified/store.py:236-239 | an event names the revision of the entries before it, or raises on bounds or an invalid list |
| `Receiver.ReceiverRuntime.Admit` | src/observable_agent_workflow_memory/qualified/runtime.py:30-60 | one transaction that changes the rows as `AdmitRows` specifies or not at all; `Calls.AdmitIff` says when and how |
| `Receiver.ReceiverRuntime.MissingCosts` | src/observable_agent_workflow_memory/qualified/runtime.py:40-47 | the loop chains one cost entry for each obligation not on record |
| `Receiver.ReceiverRuntime.AllEligible` | src/observable_agent_workflow_memory/qualified/runtime.py:49-54 | every input is judged, and one ineligible input is enough to refuse |
| `Receiver.ReceiverRuntime.Record` | src/observable_agent_workflow_memory/qualified/runtime.py:138-145 | host records of the five permitted kinds only, appended as specified or not at all |
| `Receiver.ReceiverRuntime.Shown` | src/observable_agent_workflow_memory/qualified/runtime.py:62-99 | retrieval of a registered receiver within the result limit, on the rows as they are |
| `Receiver.ReceiverRuntime.Run` | src/observable_agent_workflow_memory/qualified/runtime.py:107-124 | the views shown are recorded with them, or nothing is shown and no choice of views could have been |
| `Receiver.ReceiverRuntime.Exposures` | src/observable_agent_workflow_memory/qualified/runtime.py:114-123 | the loop chains one exposure for each view |
| `Receiver.ReceiverRuntime.Reserve` | src/observable_agent_workflow_memory/qualified/runtime.py:177-219 | duplicate, refused or reserved as `ReserveRows` specifies, which `Calls.DuplicateIff` and `Calls.ReserveIff` state in full; only a reservation changes the rows |
| `Receiver.ReceiverRuntime.Execute` | src/observable_agent_workflow_memory/qualified/runtime.py:222-276 | the tool is called at most once, only when the fence holds, and its records are committed together or not at all |
| `Receiver.ReceiverRuntime.Settle` | src/observable_agent_workflow_memory/qualified/runtime.py:237-276 | what follows the call: three chained records, one append, and the service as the final state has it; `Calls.ExecuteIff` has the records |
| `Steps.AdmissionKeeps` | src/observable_agent_workflow_memory/qualified/runtime.py:34-60 | an admission keeps the journal invariant and every row, and records no outcome |
| `Steps.RunKeeps` | src/observable_agent_workflow_memory/qualified/runtime.py:110-124 | so does an exposure |
| `Steps.RecordKeeps` | src/observable_agent_workflow_memory/qualified/runtime.py:138-145 | so does a host record |
| `Uses.ReserveKeeps` | src/observable_agent_workflow_memory/qualified/runtime.py:177-219 | a reservation keeps the journal invariant and its identity is new |
| `Uses.ExecuteKeeps` | src/observable_agent_workflow_memory/qualified/runtime.py:222-269 | a tool call happens on the rows of its own reservation, eligible there; its records keep the journal invariant |
| `Safety.RunInv` | src/observable_agent_workflow_memory/qualified/runtime.py:30-276 | the protocol invariant holds in every interleaving of any number of callers, with crashes anywhere and a changing host |
| `Safety.RunGrows` | src/observable_agent_workflow_memory/qualified/store.py:225-232 | rows and tool calls of a run stay when it goes on: no row is lost or replaced |
| `Safety.RunReaches` | src/observable_agent_workflow_memory/qualified/runtime.py:30-276 | every run reaches a system whose rows can be stored and replayed |
| `Safety.ToolAtMostOncePerIdentity` | src/observable_agent_workflow_memory/qualified/runtime.py:177-236 | no two tool calls of a run are for one use identity |
| `Safety.ToolRunsOnOwnIntent` | src/observable_agent_workflow_memory/qualified/runtime.py:222-236 | when the tool ran the last committed row was that call's own intent, and the call was eligible on those rows for the host of that moment |
| `Safety.RecordedOutcomesHappened` | src/observable_agent_workflow_memory/qualified/runtime.py:232-256 | every outcome on record is what a tool call for that very use came to: its text as received, a timeout, or a failure |
| `Safety.OneUnresolvedPerScope` | src/observable_agent_workflow_memory/qualified/runtime.py:203-208 | no two intents of one qualification and input are unresolved together |
| `Revocation.NothingAfterWithdrawal` | src/observable_agent_workflow_memory/qualified/eligibility.py:123-124 | no admission, exposure, intent or attempt comes after the withdrawal of a dependency of its qualification |
| `Revocation.NothingAfterInvalidation` | src/observable_agent_workflow_memory/qualified/eligibility.py:125-132 | nor after an invalidation of its artifact, context and input dated at or after the start of its validity |
| `Revocation.NothingAfterNegative` | src/observable_agent_workflow_memory/qualified/store.py:127-139 | nor after a use of the same artifact, context and input ended in a checked negative |
| `Revocation.NegativeBlocks` | src/observable_agent_workflow_memory/qualified/store.py:127-139 | the check of a refused answer puts its covering block in the state; `Meaning.BlocksRead` says that nothing else but an invalidation does |
| `Revocation.BlockRejectsDecisions` | src/observable_agent_workflow_memory/qualified/eligibility.py:125-132 | a recorded block makes every later decision reject, in every journal extension, for every host and clock |
| `Revocation.BlockRejectsViews` | src/observable_agent_workflow_memory/qualified/checker.py:39-45 | and every later view check |
| `Revocation.BlockRejectsRetrieval` | src/observable_agent_workflow_memory/qualified/runtime.py:74-84 | and keeps the qualification out of every later retrieval |
| `Revocation.BlockRejectsUse` | src/observable_agent_workflow_memory/qualified/runtime.py:209-216 | and every later reservation |
| `Revocation.BlockRejectsAdmission` | src/observable_agent_workflow_memory/qualified/runtime.py:48-54 | and every later admission that covers the input, the re-admission of an admitted qualification included |
| `Revocation.WithdrawalRejectsDecisions` | src/observable_agent_workflow_memory/qualified/eligibility.py:123-124 | a withdrawn dependency rejects every later decision |
| `Revocation.BlockSparesLater` | src/observable_agent_workflow_memory/qualified/eligibility.py:125-131 | a block dated before the start of validity makes no difference |
| `Settlement.IntentTrichotomy` | src/observable_agent_workflow_memory/qualified/store.py:140-153 | in every run each intent is exactly one of service, checked negative and unresolved |
| `Settlement.ServicesAreEarned` | src/observable_agent_workflow_memory/qualified/store.py:79-144 | each service is counted once and has a recorded cost, an attempt and a received answer equal to the normal form of its input |
| `Settlement.UnansweredForever` | src/observable_agent_workflow_memory/qualified/store.py:95-153 | a timeout or unknown outcome stays unresolved, and no service, in every longer journal |
| `Settlement.UnansweredClosesScope` | src/observable_agent_workflow_memory/qualified/runtime.py:203-208 | and closes its qualification and input to every later reservation |
| `Settlement.DistinctIntentsDistinctCosts` | src/observable_agent_workflow_memory/qualified/runtime.py:217-219 | in every run distinct intents refer to distinct costs |
| `Settlement.SpentCostRefused` | src/observable_agent_workflow_memory/qualified/runtime.py:217-219 | a reservation that names the cost of another use is refused, in every run |
| `Settlement.RetryIsDuplicate` | src/observable_agent_workflow_memory/qualified/runtime.py:189-202 | an identical retry is a duplicate on every longer journal, for every host, registry and clock, and reports whether the use became a service |
| `Settlement.NoRevisionReturns` | src/observable_agent_workflow_memory/qualified/store.py:41-43 | between two moments of a run with the same revision nothing was appended |
| `Effects.AdmissionAdmits` | src/observable_agent_workflow_memory/qualified/runtime.py:48-60 | a successful admission leaves the qualification admitted with every obligation paid |
| `Effects.RunRecordsWhatItShows` | src/observable_agent_workflow_memory/qualified/runtime.py:110-124 | one exposure is recorded for each view, in the order shown, and no other |
| `Effects.RecordAppends` | src/observable_agent_workflow_memory/qualified/runtime.py:138-145 | a host record is the one new row, as given, chained to the rows before it, and made against their revision |
| `Effects.ReservationRecords` | src/observable_agent_workflow_memory/qualified/runtime.py:182-219 | a reservation adds the cost and the intent of the call, in that order and at its time, and its ticket names the receiver's registered context and the revision after them |
| `Effects.UseSettles` | src/observable_agent_workflow_memory/qualified/runtime.py:237-269 | a committed use is a service exactly when the tool answered the normal form of the input, a checked negative exactly when it answered anything else, unresolved exactly when it did not answer; the outcome on record is the answer as received, a timeout for a timeout, and lost for any other failure |
| `Calls.AdmitIff` | src/observable_agent_workflow_memory/qualified/runtime.py:30-60 | an admission succeeds exactly for the registered context of the receiver, against the present revision, with promotion and reconstruction, every input eligible once the costs are paid, and rows that can be stored; it adds the missing costs and the admission, written out, or nothing if it was admitted before |
| `Calls.RecordIff` | src/observable_agent_workflow_memory/qualified/runtime.py:138-145 | a host record succeeds exactly for one of the five kinds, against the present revision, when its row can be stored |
| `Calls.RunIff` | src/observable_agent_workflow_memory/qualified/runtime.py:107-124 | `run` with given views succeeds exactly when they are what retrieval returns and their exposures, written out, can be stored |
| `Calls.DuplicateIff` | src/observable_agent_workflow_memory/qualified/runtime.py:182-202 | an identity on record is a duplicate exactly when the recorded intent has the qualification, input, action and cost id of the call and the cost is on record as stated; it reports whether the use is a service; otherwise it is refused |
| `Calls.ReserveIff` | src/observable_agent_workflow_memory/qualified/runtime.py:177-219 | a new identity is reserved exactly for an admissible call with a use cost, against the present revision, for a registered receiver, eligible at a valid time, with nothing of its qualification and input pending, when its cost and intent can be stored |
| `Calls.ExecuteIff` | src/observable_agent_workflow_memory/qualified/runtime.py:222-269 | the tool is called exactly when the rows are those that the reservation left, the use is eligible on them and the attempt has a valid id; what it did is recorded exactly when it did not raise and the four rows, written out with the answer received, timed out or lost, can be stored |
| `Calls.UseBlocks` | src/observable_agent_workflow_memory/qualified/store.py:127-139 | a committed use adds one block, written out, exactly when the tool answered and the answer is not the normal form of the input, and no block when it timed out or failed |
| `Completion.ExtendsIff` | src/observable_agent_workflow_memory/qualified/store.py:34-154 | stored rows can be extended by a chained entry exactly when there is room, bounds hold, the id is unused, the longer list can be digested, and the entry applies |
| `Completion.UseCommitsIff` | src/observable_agent_workflow_memory/qualified/runtime.py:231-269 | once the tool is called the use is committed exactly when the call did not raise, four more entries fit, their four ids are valid and unused, the answer is within the text limit, and the longer list can be digested |
| `Completion.ReservedRunsIff` | src/observable_agent_workflow_memory/qualified/runtime.py:217-236 | a reserved use whose second transaction comes next on the same host calls the tool exactly when the id of its attempt is valid |
| `Completion.OverlongAnswerLost` | src/observable_agent_workflow_memory/qualified/runtime.py:237-269 | the case that fails: an answer longer than the text limit is not recorded, right or wrong |
| `Completion.OverlongAnswerInEveryRun` | src/observable_agent_workflow_memory/qualified/runtime.py:203-269 | it happens at the end of every run that reserves: the tool is called, its long answer is not recorded, and in every continuation the use has neither attempt nor outcome and its qualification and input are closed |
| `Completion.LostForever` | src/observable_agent_workflow_memory/qualified/runtime.py:203-269 | a use that was fenced, crashed, raised or did not fit stays without attempt and outcome in every continuation, and closes its qualification and input to every later reservation |
| `Completion.CrashedForever` | src/observable_agent_workflow_memory/qualified/runtime.py:203-236 | so does a use whose process stopped between its two transactions |
| `Records.StripMeans` | src/observable_agent_workflow_memory/core/models.py:180-187 | stripping takes white space, listed by code point, off both ends of a claim, and as much of it as there is |
| `Records.CreatedBinds` | src/observable_agent_workflow_memory/core/models.py:190-237 | a created record binds its own content exactly when its claim was given stripped |
| `Records.LaneTable` | src/observable_agent_workflow_memory/core/transitions.py:10-26 | a move is allowed exactly if it stays or is one of the twenty pairs |
| `Evidence.AcceptedEvidenceIsBuilt` | src/observable_agent_workflow_memory/adapters/jsonschema_checker.py:71-415 | evidence that all checkers accept is, up to schema version and time stamp, the manifest built from record and authoritative digests exactly when every resource cap is a plain integer |
| `Evidence.BooleanCapAccepted` | src/observable_agent_workflow_memory/adapters/jsonschema_checker.py:248-269 | where that fails: for every record with the cap `max_steps: true` and nothing else against it there is evidence that passes all seven checkers, while the evidence built for it does not |
| `Evidence.BuiltEvidencePasses` | src/observable_agent_workflow_memory/core/models.py:276-317 | built evidence passes exactly for candidate- or shadow-lane records with a binding update id, unique present sources, string tools, plain caps in range, no float and a fitting action |
| `Evidence.AcceptedIff` | src/observable_agent_workflow_memory/adapters/jsonschema_checker.py:71-441 | for a record with plain caps the seven checkers accept exactly the evidence that states digests, tools and caps, holds no float and parses to the manifest built from the record, and only if the record can be verified |
| `Verdicts.VerifiableMeans` | src/observable_agent_workflow_memory/adapters/jsonschema_checker.py:24-441 | what a record needs for its built evidence to pass, field by field: lane, claim, distinct stored sources, a binding update id, no float, caps of plain integers with a step cap of 1 to 128, and an action of its tools with the very caps |
| `Evidence.ParseDump` | src/observable_agent_workflow_memory/core/models.py:263-274 | parsing a dumped manifest gives the manifest back |
| `Evidence.DumpParse` | src/observable_agent_workflow_memory/core/models.py:263-274 | dumping a parsed manifest gives the evidence back, when it states every field and its caps are plain |
| `Evidence.FindFloatPaths` | src/observable_agent_workflow_memory/adapters/jsonschema_checker.py:443-457 | the paths of all floats at any level, each marked when not finite, and no others; empty exactly when there is no float |
| `Tables.WriteKeepsSynced` | src/observable_agent_workflow_memory/adapters/sqlite_storage.py:298-357 | every write keeps the current row equal to the last revision, each revision's before-lane equal to the previous after-lane, and one index row per memory with its lane and claim |
| `Tables.SearchIsSound` | src/observable_agent_workflow_memory/adapters/sqlite_storage.py:515-559 | on all three query paths a search returns current records of the lanes asked for that the query finds, none twice, no more than the limit |
| `Tables.SearchIsComplete` | src/observable_agent_workflow_memory/adapters/sqlite_storage.py:515-559 | with the limit not reached no record of these lanes that the query finds is missing |
| `Tables.ReceiptsOfMeans` | src/observable_agent_workflow_memory/adapters/sqlite_storage.py:448-457 | listed receipts are exactly those of the candidate |
| `Kernel.SQLiteStorage.UpsertMemoryRecord` | src/observable_agent_workflow_memory/adapters/sqlite_storage.py:279-358 | row, revision and index row change together as specified |
| `Kernel.SQLiteStorage.AppendEvent` | src/observable_agent_workflow_memory/adapters/sqlite_storage.py:211-234 | an event is refused exactly for a payload that does not match its digest or a taken id |
| `Kernel.SQLiteStorage.CreateContract` | src/observable_agent_workflow_memory/adapters/sqlite_storage.py:391-410 | a contract is refused exactly when its id holds a different one |
| `Kernel.SQLiteStorage.CreateReceipt` | src/observable_agent_workflow_memory/adapters/sqlite_storage.py:421-437 | a receipt is refused exactly when its id is taken |
| `Kernel.SQLiteStorage.CreateEvidenceManifest` | src/observable_agent_workflow_memory/adapters/sqlite_storage.py:459-474 | manifests are only ever added |
| `Kernel.AgentKernel.Observe` | src/observable_agent_workflow_memory/runtime/kernel.py:145-169 | leaves the tables of its plan and the event, or raises where the plan does, a payload without a digest included |
| `Kernel.AgentKernel.ProposeMemory` | src/observable_agent_workflow_memory/runtime/kernel.py:208-254 | the same for a proposal by the deterministic proposer, whose caps are taken as they are given |
| `Kernel.AgentKernel.CollectEventDigests` | src/observable_agent_workflow_memory/runtime/promotion.py:163-171 | digests of the stored sources and the list of missing ones, in order |
| `Kernel.AgentKernel.BuildEvidence` | src/observable_agent_workflow_memory/runtime/promotion.py:39-49 | the manifest is stored exactly when it can be built |
| `Kernel.AgentKernel.Verify` | src/observable_agent_workflow_memory/runtime/promotion.py:51-111 | leaves the tables of the verification plan: manifest, receipt, event, moved record |
| `Kernel.AgentKernel.Promote` | src/observable_agent_workflow_memory/runtime/promotion.py:113-161 | leaves the tables of the promotion plan, what was written before a failing supersession included |
| `Kernel.AgentKernel.SupersedeEach` | src/observable_agent_workflow_memory/runtime/promotion.py:147-159 | the loop stops at the first memory that is missing or may not move, and keeps what it wrote |
| `Kernel.AgentKernel.CorrectMemory` | src/observable_agent_workflow_memory/runtime/kernel.py:269-313 | leaves the tables of its plan; the event stays when the corrected claim is empty |
| `Kernel.AgentKernel.Retire` | src/observable_agent_workflow_memory/runtime/kernel.py:434-450 | leaves the tables of its plan, the record moved before the event is added |
| `Kernel.AgentKernel.Contradict` | src/observable_agent_workflow_memory/runtime/kernel.py:452-487 | leaves the tables of its plan; the original record is not moved |
| `Kernel.AgentKernel.Supersede` | src/observable_agent_workflow_memory/runtime/kernel.py:489-515 | leaves the tables of its plan, for a certified newer memory with a passing receipt of its own |
| `Outcomes.ObserveOutcome` | src/observable_agent_workflow_memory/runtime/kernel.py:145-169 | goes through exactly for a payload that can be digested, an unused event id and, if indexed, a claim that is not blank; adds the event and the raw record, written out |
| `Outcomes.ProposeOutcome` | src/observable_agent_workflow_memory/runtime/kernel.py:208-254 | goes through exactly for a run with events and caps that can be digested; adds a candidate whose sources are the events of the run, in order and none left out, with the metadata written out |
| `Outcomes.CorrectOutcome` | src/observable_agent_workflow_memory/runtime/kernel.py:269-313 | goes through exactly for a memory on record, a claim that is not blank and an unused event id; adds the event and a candidate that supersedes the original, written out, and leaves the original as it is |
| `Outcomes.ContradictOutcome` | src/observable_agent_workflow_memory/runtime/kernel.py:452-487 | the same for a contradicting record |
| `Outcomes.RetireOutcome` | src/observable_agent_workflow_memory/runtime/kernel.py:434-450 | goes through exactly for a memory on record, in any lane, and an unused event id; the record goes to the tombstone lane and keeps everything but lane and reason |
| `Outcomes.SupersedeOutcome` | src/observable_agent_workflow_memory/runtime/kernel.py:489-515 | goes through exactly for two memories on record, a passing receipt of the newer, the newer certified, the earlier certified or superseded, and an unused event id; only the earlier one moves |
| `Verdicts.VerifyOutcome` | src/observable_agent_workflow_memory/runtime/promotion.py:51-111 | with evidence built, goes through exactly for unused receipt and event ids; adds evidence, receipt and event, written out; the record goes to shadow if all seven checkers accept and to quarantine if not |
| `Promotions.SupersedeEachOutcome` | src/observable_agent_workflow_memory/runtime/promotion.py:147-159 | the loop succeeds exactly if every memory listed is on record as certified or superseded; then exactly these are superseded with the receipt, one revision each, in order |
| `Promotions.PromoteOutcome` | src/observable_agent_workflow_memory/runtime/promotion.py:113-161 | with a passing receipt for the present update, the last of them, a promotion goes through exactly from shadow or certified, with no other contract under the id, every superseded memory certified or superseded, and an unused event id; contract, certified record, superseded memories, revisions and event are written out, every other record stays |
| `Promotions.CorrectionSupersedes` | src/observable_agent_workflow_memory/runtime/kernel.py:286-293 | at the end of every run, whenever the memory that a correction made is promoted, the original becomes superseded by the same receipt and no third memory changes |
| `Promotions.PromotionHalfDone` | src/observable_agent_workflow_memory/runtime/promotion.py:141-159 | the case that fails: when a memory to be superseded may not be, the promotion raises with its own memory certified, under a contract, and no event |
| `Promotions.CorrectionHalfPromoted` | src/observable_agent_workflow_memory/runtime/promotion.py:141-159 | it happens in every run to the verified correction of a memory that is neither certified nor superseded: promoting it raises and leaves it certified |
| `Certification.VerifyAdmissible` | src/observable_agent_workflow_memory/runtime/promotion.py:60-111 | each write of a verification keeps the binding, at whatever point it is cut |
| `Certification.PromoteAdmissible` | src/observable_agent_workflow_memory/runtime/promotion.py:113-160 | so does each write of a promotion |
| `Certification.AdmissibleGrows` | src/observable_agent_workflow_memory/adapters/sqlite_storage.py:211-474 | what may be written on the tables that an operation has read may still be written when others have added to them |
| `Races.PlayKeeps` | src/observable_agent_workflow_memory/runtime/promotion.py:51-161 | in every interleaving of the single writes of any number of operations, each stopped anywhere, records, receipts, manifests and contracts stay bound to each other and the tables stay in step |
| `Races.RunIsPlayed` | src/observable_agent_workflow_memory/runtime/kernel.py:145-515 | one operation after another, each cut anywhere, is one of these interleavings, promotions with their superseded memories included |
| `Races.CertifiedIsProven` | src/observable_agent_workflow_memory/runtime/promotion.py:114-146 | in every interleaving, with a crash after any write, a certified record has a stored passing non-empty receipt for its present update and a contract for the two |
| `Races.TablesInStep` | src/observable_agent_workflow_memory/adapters/sqlite_storage.py:279-358 | in every interleaving the current row equals the last revision, lanes are chained from revision to revision, and the index has one matching row per memory |
| `Races.SearchFindsProven` | src/observable_agent_workflow_memory/runtime/kernel.py:315-330 | every search hit in an interleaving is certified, hence proven |
| `Rechecks.ReceiptsAlwaysVerify` | src/observable_agent_workflow_memory/adapters/receipt_verifier.py:18-86 | every receipt that a kernel made verifies in every interleaving, whatever happened to its memory since |
| `Rechecks.CertifiedRechecks` | src/observable_agent_workflow_memory/qualified/eligibility.py:40-88 | in every interleaving the promotion recheck, with record, receipt, contract, manifest, events and all seven checkers, passes exactly for a memory that is certified now under the update and workflow digest that the qualification names |
| `Rechecks.ReceiptTamperEvident` | src/observable_agent_workflow_memory/adapters/receipt_verifier.py:31-86 | a receipt under the digest of one that a kernel made, in any interleaving, verifies exactly when nothing in it was changed, for the memory and update it was made for, with evidence that it refers to |
| `Rechecks.RecheckProves` | src/observable_agent_workflow_memory/qualified/eligibility.py:40-88 | what the recheck establishes on tables that anyone may have written: a certified record that binds its content, its passing receipt, evidence of that content and of stored sources that are intact, and a contract of that memory, update and receipt |
| `Rechecks.StrictRecheckByLane` | src/observable_agent_workflow_memory/runtime/kernel.py:573-613 | the strict audit of a passing receipt passes exactly while its memory is in the candidate or shadow lane |
| `Origins.RunMade` | src/observable_agent_workflow_memory/runtime/kernel.py:217-254 | in every run a memory with the content of a proposal is what some proposal made when the journal held its first n events |
| `Lanes.NoReproposal` | src/observable_agent_workflow_memory/runtime/kernel.py:208-254 | no proposal recreates a memory unless its run has as many events as the proposal covered |
| `Lanes.ReproposalSameIff` | src/observable_agent_workflow_memory/runtime/kernel.py:217-249 | a proposal repeated later is the same memory exactly when its run has not grown |
| `Revival.ProposableIff` | src/observable_agent_workflow_memory/runtime/kernel.py:208-254 | in every run a stored memory is what some proposal made now would be exactly when a proposal made it and its run has had no event since |
| `Revival.RevokedForever` | src/observable_agent_workflow_memory/core/transitions.py:8-25 | in every run, whatever is cut, a memory in quarantine, tombstone, superseded or contradiction whose run has changed since its proposal stays in these lanes and is never certified again |
| `Revival.ComesBackIff` | src/observable_agent_workflow_memory/core/transitions.py:8-25 | in every run a revoked memory can be certified again by some continuation exactly when its run has had no event since it was proposed and its caps are plain integers in range |
| `Revival.RetirementUndoneIff` | src/observable_agent_workflow_memory/runtime/kernel.py:434-450 | a retirement leaves a tombstone that can be certified again exactly when its event was not written, the run had not changed since the proposal, and the caps are good |
| `Revival.LostRetirement` | src/observable_agent_workflow_memory/runtime/kernel.py:438-449 | the case that fails, in every run: a memory just proposed, its retirement cut after the first write, is a tombstone and can be certified again |
| `Revival.CertifiableNow` | src/observable_agent_workflow_memory/runtime/promotion.py:51-161 | a verifiable record without superseded memories can be verified and promoted from any state of the tables: ids not taken are always left |
| `Permanence.ReturnsIff` | src/observable_agent_workflow_memory/runtime/promotion.py:51-161 | with several kernels: in every interleaving a revoked memory can leave the revoked lanes in some continuation exactly when its run has had no event since it was proposed, or some running operation still has a write to make, one that goes through, that takes it out |
| `Overtaking.RetirementOvertaken` | src/observable_agent_workflow_memory/runtime/promotion.py:114-146 | it happens whenever a memory can be promoted and neither contract nor event is refused: a second kernel retires it, event and all, and the promotion writes its certified record over the tombstone and logs that change |
| `Histories.LoggedRevisions` | src/observable_agent_workflow_memory/core/transitions.py:8-25 | in every interleaving a turn logs at most one revision: a move of the table, a quarantine by a failed verification, the write of an operation that read the memory in another lane, or a proposal of it again from an unchanged run |
| `Lifecycle.ProposalMadeIff` | src/observable_agent_workflow_memory/runtime/kernel.py:217-254 | a proposal is refused exactly when its run has no events or its caps hold a float that is not finite |
| `Lifecycle.ProposalVerifiableIff` | src/observable_agent_workflow_memory/runtime/kernel.py:208-254 | a proposal made in any run can be verified exactly when the caps asked for, if any, are plain integers with the step cap in range |
| `Lifecycle.BooleanCapProposal` | src/observable_agent_workflow_memory/runtime/kernel.py:235-236 | a proposal takes the cap `max_steps: true`: in every run evidence can be written that passes all checkers for its memory, on the stored digests, while the built evidence fails |
| `Lifecycle.VerifiableIsCertified` | src/observable_agent_workflow_memory/runtime/promotion.py:51-161 | a verifiable record without superseded memories is in the shadow lane after verification and certified after promotion |
| `Lifecycle.ProposalsCanBeCertified` | src/observable_agent_workflow_memory/runtime/promotion.py:51-161 | from any run a proposal with plain caps in range, verified and promoted with no write refused, is certified |
| `Transitions.VerifyObeysTableIff` | src/observable_agent_workflow_memory/runtime/promotion.py:87-110 | the move that verification makes is one of the table exactly from candidate, shadow and quarantine |
| `Transitions.RevisionsObeyTable` | src/observable_agent_workflow_memory/core/transitions.py:8-25 | in every run each revision is a move of the table, a quarantine by a failed verification, or a proposal over a tombstone; the last never in a run that cuts no retirement of a repeatable candidate |

## Left out

- `native.form`, `_propose` and the body of `reconstruct`: their meaning is in packages that are not part of
  this model. `Eligibility.Reconstructs` stands for the outcome, with the one consequence used, that a
  reconstructed candidate has an artifact digest.
- The source mapping at the end of `eligibility.promotion` (lines 89 to 100), which compares the qualification's
  own training and evaluation sources. `Rechecks.PromotionRechecks` has everything before it.
- Exceptions other than `ValueError` and `KeyError` from reconstruction; `decision` lets them through.
- SHA-256 and hexadecimal text: digests are injective by construction, at full length or cut.
- JSON lexing and printing of floats: the journal starts from the parsed tree, `Wire.Encode` gives the text of it.
  The members of an object are taken in the order in which they print; two orders of one object are two trees.
- Entries whose data does not fit their kind: one `Malformed` body that replay refuses. In a journal that was not
  written through the runtime the original also replays inputs and outputs that are not strings, and admissions
  that leave out fields with a default.
- The limit of eight distinct receivers when a runtime is made.
- Error messages: refusals are told apart only as far as the callers do. Checker and revision reasons, names and
  descriptions of contracts are not kept.
- Receipt lookup, tool name, argument digest and action gate of a use: one flag, `UseCall.admissible`; of the
  tool adapter only what its call came to.
- The prompt and the model call after an exposure: they follow the transaction and write nothing.
- The SQLite engine, WAL and read-only checks, schema migration and legacy defaults: a transaction is one step,
  tables are sequences and maps. Full-text matching and scores are a predicate and an arbitrary order.
- Case folding of claims and queries: `Retrieval.Query` is any predicate on claims.
- Time stamps and random parts: parameters of the steps. Revision ids are not modelled, as nothing reads them.
- Evidence handed to `promotion.verify` by a caller, as a step of a run: the kernel never does. What the checkers
  make of such evidence is in `Evidence.AcceptedEvidenceIsBuilt`.
- Checker contexts other than the action intent, and metadata that no kernel operation makes (tools that are a
  string or an object, run ids or signatures that are not strings).
- How the model library reads integers from strings and floats, and time stamps: `Evidence.Readers`, arbitrary.
- `audit_receipts` beyond its two checks, `kernel.run`, tool invocation, plugins, economics, semantic checkers,
  command line: wiring, or single-branch checks that would add easy members only.
- In an interleaving an operation reads what it needs when it begins, save the memories that a promotion
  supersedes; so `observe` numbers its event then, not when the event is stored.
