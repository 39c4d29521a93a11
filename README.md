# Game team orchestrator and tool job queue, modelled in Dafny

The orchestrator drives a team of AI agent roles (concept, game design, narrative, QA, a
moderator, ...) through a shared runtime state document. The document holds:

- **tasks**: an id `TASK-nnnn`, a role, a title and a description, a status (queued, running,
  done, failed), a metadata object carrying the dependency list and a retry instant;
- **roles**: one record each, with the agent session it may resume, the backend and model
  that session was opened on, whether it is busy, and the tasks it completed;
- **pipelines** (`PIPE-nnnn`): stage tasks that each wait for the previous stage;
- **debates** (`DEBATE-nnnn`): participant tasks that depend on nothing, and a moderator
  task that waits for all of them.

A task's agent is run over the role's model chain, taken from the model router
configuration. Each chain entry gets a bounded number of output-format retries. A reply is
accepted only when its JSON footer (the output contract) validates against the task and
the role, and when the markdown report has the required sections. There are then three
outcomes:

- **done**: a reply was accepted. Its footer is reduced to a compression record for the
  next role.
- **deferred**: every model of the chain reported a quota or rate-limit error. The task is
  queued again with a retry instant.
- **failed**: anything else.

The pipeline or debate the task belongs to then has its status recomputed. The commands
`dispatch`, `run-pipeline`, `run-debate` and `drain` drive this loop.

The tool job queue (`TOOL-nnnn`) is the asset-generation side. A job is submitted for a
configured tool with an output path inside the project. A worker takes the first queued job
and runs it, retrying up to a maximum number of attempts. A successful output is recorded
in an asset manifest, keyed by the job's id. Jobs can be cancelled while queued, and the
queue can be summarised by status.

## Layout

- `text.dfy` (module `Text`): the ASCII part of Python's `str` API the core uses:
  `lower`, `strip`, `find`, `rfind`, `split`, `int()`, `str(n)` and `%04d`.
- `json.dfy` (module `JsonValue`): decoded JSON values. An object is a sequence of fields,
  and the last binding of a key wins, as `json.loads` leaves it. Also lookup, `pop`,
  assignment, `str()` and `repr()`.
- `config.dfy` (module `RoleConfig`): the YAML id-list reader, the model router
  (backend/model normalisation and the role's chain) and the quota policy.
- `contract.dfy` (module `Contract`):
  - extraction of the output contract from a reply;
  - the contract and report validators;
  - the compression record.
- `taskgraph.dfy` (module `TaskGraph`), the read-only rules of the task graph:
  - id allocation;
  - dependencies and readiness;
  - the next queued task and the blocked ones;
  - session reuse;
  - pipeline/debate status aggregation;
  - the handoff context.
- `state.dfy` (module `StateStore`): the class `RuntimeState`, whose methods change the
  state document in place. They cover construction, schema migration, role registration,
  enqueueing, the pipeline and debate factories, deferral, crash recovery and the status
  refresh.
- `dispatch.dfy` (module `Dispatch`): the run of one task over its model chain with
  format retries, and the bookkeeping of its outcome.
- `drivers.dfy` (module `Drivers`): the commands `dispatch`, `run-pipeline`, `run-debate`
  and `drain`.
- `tooljobs.dfy` (module `ToolJobs`):
  - the class `JobStore` over the job list and the asset manifest;
  - submission, the worker step and the worker loop;
  - cancellation, the summary and `key=value` parameter parsing.

Oracles stand for what the model cannot see:

- `parse` is `json.loads` on a candidate text;
- `runner` gives the result of each agent run, indexed by the run's position among all
  runs of a command;
- `now` is the clock, one instant per command;
- `inside` is the check that a path resolves inside the project root;
- `Execution` is what `execute_job` and the file system report for one job.

## Model

| member | source | states |
|---|---|---|
| Text.Lower | team/orchestrator.py:280-281 | lower-casing keeps the length and maps each character on its own: ASCII capitals to their small letters, everything else to itself |
| Text.LowerIdempotent | team/orchestrator.py:316 | lower-casing twice is the same as once |
| Text.LowerKeepsSpaces | team/orchestrator.py:316 | lower-casing keeps a stripped text stripped and a blank text blank, so it commutes with strip |
| Text.LStripFacts | team/orchestrator.py:895-896 | lstrip keeps a suffix of its input; what it drops is whitespace, and what it keeps is empty or opens with a non-space |
| Text.RStripFacts | team/orchestrator.py:895-896 | rstrip keeps a prefix of its input; what it drops is whitespace, and what it keeps is empty or closes with a non-space |
| Text.Strip | team/orchestrator.py:895-896 | a stripped text neither opens nor closes with whitespace, and an already stripped text is its own strip |
| Text.StripEmptyIffBlank | team/orchestrator.py:393-395 | strip leaves nothing exactly when the text is all whitespace |
| Text.LStripSpacesFacts | team/orchestrator.py:122-133 | lstrip(" ") keeps a suffix of its input, drops only space characters and stops at the first other one |
| Text.FindFacts | team/orchestrator.py:384-390 | find names an occurrence at or after the start, with no earlier one; None only when there is none |
| Text.Find | team/orchestrator.py:384-390 | an occurrence found lies at or after the start and within the text |
| Text.RFindFacts | team/orchestrator.py:380 | rfind names an occurrence with none after it; None only when there is none |
| Text.RFind | team/orchestrator.py:380 | an occurrence found lies within the text |
| Text.ContainsIffOccurs | team/orchestrator.py:281 | `sub in s` holds exactly when some index of s starts an occurrence of sub |
| Text.Split | team/orchestrator.py:848 | a split always yields at least one piece |
| Text.SplitNoSeparator | team/orchestrator.py:848 | a text without the separator splits into itself alone |
| Text.SplitAtFirst | team/orchestrator.py:848 | splitting p + sep + q, for p without the separator, gives p followed by the pieces of q |
| Text.SplitPartsExclude | team/orchestrator.py:848 | no piece of a split contains the separator |
| Text.IndexOfChar | team/tools/adapter.py:612-615 | the first index holding the character, with none before it; None exactly when it does not occur |
| Text.NatToString | team/orchestrator.py:849 | str(n) is a non-empty run of decimal digits |
| Text.Pad4 | team/orchestrator.py:849 | "%04d" gives at least four decimal digits |
| Text.IntRoundTrip | team/orchestrator.py:848-849 | int(str(i)) == i for every integer, negative ones included |
| Text.Pad4RoundTrip | team/orchestrator.py:848-849 | the digits of the zero-padded rendering of n read back as n |
| Text.Pad4Parses | team/orchestrator.py:848-849 | int() of the zero-padded rendering of n is n, and the rendering holds no minus sign |
| Text.ParseIntUnsigned | team/orchestrator.py:848 | int() of a text without a minus sign is never negative |
| Text.DigitsLeadUnsigned | team/orchestrator.py:848 | int() reads a non-empty run of digits as those digits, with no sign |
| Text.StripExcludes | team/orchestrator.py:895-896 | strip adds no character, so a character absent from the input is absent from the result |
| Text.JoinNonEmpty | team/orchestrator.py:1999 | a join whose first element is non-empty is non-empty |
| JsonValue.Get | team/orchestrator.py:604-606 | a lookup finds a value exactly when the object has the key |
| JsonValue.GetLast | team/orchestrator.py:397-402 | the value found is that of the last field carrying the key, as json.loads keeps the last of repeated keys |
| JsonValue.GetOr | team/orchestrator.py:1820-1821 | a missing key yields the default |
| JsonValue.PyStrEmptyIff | team/orchestrator.py:608-614 | str(v) is empty exactly for the empty string, so `if str(v):` fails only for "" |
| JsonValue.PyStrOfNonString | team/orchestrator.py:608-614 | str() of anything but a string opens with N, T, F, a minus sign, a bracket, a brace or a digit |
| JsonValue.Repr | team/orchestrator.py:608-618 | repr() is never empty |
| JsonValue.QuoteChar | team/orchestrator.py:608-618 | repr() quotes a string with double quotes exactly when it holds a single quote and no double quote, and with single quotes otherwise |
| JsonValue.EscapeChar | team/orchestrator.py:608-618 | one character in a quoted repr(): at most four characters, never starting with the quote; a backslash opens it exactly for the quote, the backslash and the ASCII control characters; every quote in it is escaped |
| JsonValue.Escape | team/orchestrator.py:608-618 | the escaped body is between one and four times as long as the string and never starts with the quote |
| JsonValue.QuoteRepr | team/orchestrator.py:608-618 | repr() of a string opens and closes with the quote QuoteChar picks |
| JsonValue.EscapeRoundTrip | team/orchestrator.py:608-618 | reading an escaped body back gives the string, for either quote |
| JsonValue.QuoteReprRoundTrip | team/orchestrator.py:608-618 | reading a string's repr() back as a Python literal gives the string |
| JsonValue.EscapeHidesQuote | team/orchestrator.py:608-618 | every quote character in the escaped body follows a backslash, so the closing quote is the only bare one |

| JsonValue.RemoveGet | team/orchestrator.py:1790 | after pop(key) the key is gone and every other key reads as before |
| JsonValue.PutGet | team/orchestrator.py:1933-1936 | after d[key] = v the key reads v and every other key reads as before |
| JsonValue.PutPutOther | team/orchestrator.py:1980-1982 | two assignments to other keys leave a key's lookup unchanged |
| RoleConfig.ItemLine | team/orchestrator.py:143-145 | an item line yields only a non-empty run of letters, digits, `_` and `-` |
| RoleConfig.LeadingSpace | team/orchestrator.py:129-143 | the length of the opening whitespace run: all whitespace, and followed by a non-space or the end |
| RoleConfig.IdRun | team/orchestrator.py:143-145 | the length of the opening identifier run: all identifier characters, and followed by another character or the end |
| RoleConfig.ParseYamlIdList | team/orchestrator.py:117-147 | the loop over the file's lines computes the scan function over those lines |
| RoleConfig.YamlScanIds | team/orchestrator.py:129-145 | every value the scan collects is an identifier |
| RoleConfig.ParseYamlIdListIds | team/orchestrator.py:117-147 | every id read is an identifier, and a file with no key line yields no ids |
| RoleConfig.ItemLineOf | team/orchestrator.py:143-145 | "  - id" is an item line naming id |
| RoleConfig.KeyLineOf | team/orchestrator.py:129-133 | "key:" opens the list at indentation 0 |
| RoleConfig.ItemsScan | team/orchestrator.py:134-145 | item lines under an open key are collected in order |
| RoleConfig.ItemStep | team/orchestrator.py:143-145 | an "  - id" line under an open key adds id and keeps the list open |
| RoleConfig.YamlListRoundTrip | team/orchestrator.py:117-147 | a key line followed by one "  - id" line per identifier reads back exactly those ids, in order |
| RoleConfig.RouterConfigOf | team/orchestrator.py:217-229 | the default chain is never empty, and a missing attempt cap reads as 3 |
| RoleConfig.NormalizeBackend | team/orchestrator.py:236 | the normalised backend is non-empty, stripped and lower-case, "codex" when blank |
| RoleConfig.NormalizeBackendIdempotent | team/orchestrator.py:236 | normalising a normalised backend changes nothing |
| RoleConfig.NormalizeEntry | team/orchestrator.py:232-238 | a normalised entry has a non-empty, stripped, lower-case backend and a stripped model |
| RoleConfig.EntryJsonFields | team/orchestrator.py:232-238 | a normalised entry written back as an object reads back its backend and model |
| RoleConfig.NormalizeIdempotent | team/orchestrator.py:232-238 | an entry normalised, written back and normalised again is unchanged |
| RoleConfig.NormalizeObjectIdempotent | team/orchestrator.py:232-238 | the same for an entry that is an object |
| RoleConfig.NormalizeDefaultFixed | team/orchestrator.py:232-238 | the built-in codex entry is already normal |
| RoleConfig.ChainObjects | team/orchestrator.py:241-251 | no more entries than the source, each with a non-empty backend |
| RoleConfig.ModelChainForRole | team/orchestrator.py:241-251 | a role's chain has between 1 and max(cap, 1) entries, each with a backend |
| RoleConfig.ModelChainPrefix | team/orchestrator.py:241-251 | the chain is the role's own list when it is a non-empty list, else the default chain: its normalised object entries in order, cut at the cap, or the codex default when none is left |
| RoleConfig.QuotaPolicyOf | team/orchestrator.py:254-272 | an empty configuration gives deferral on, the default minutes and the default markers |
| RoleConfig.AnyMarker | team/orchestrator.py:281 | true exactly when some string marker, lower-cased, occurs in the lower-cased text |
| RoleConfig.IsQuotaError | team/orchestrator.py:275-281 | a quota error exactly when the markers are a list and one of its strings, lower-cased, occurs in the lower-cased stderr |
| RoleConfig.QuotaErrorIgnoresCase | team/orchestrator.py:280-281 | lower-casing stderr first does not change the verdict |
| Contract.AsObject | team/orchestrator.py:401-403 | a decoded document is taken exactly when it is an object |
| Contract.FencedCandidate | team/orchestrator.py:376-396 | the fenced candidate is non-empty and stripped |
| Contract.BraceCandidate | team/orchestrator.py:411-415 | the brace candidate opens with "{" and closes with "}" |
| Contract.ExtractFromFencedBlock | team/orchestrator.py:376-403 | a contract is read from the fenced block exactly when there is a fenced candidate and it decodes to an object, and the contract is that object |
| Contract.ExtractOutputContract | team/orchestrator.py:406-423 | a contract found is the decoding, as an object, of the fenced candidate or of the brace candidate |
| Contract.FencedCandidateAt | team/orchestrator.py:380-395 | with the last marker, the next newline and the next fence located, the candidate is the stripped text between them |
| Contract.FencedAt | team/orchestrator.py:380-395 | a marker with no later marker, the first newline after it and the first fence after that delimit the candidate |
| Contract.FencedFooterRoundTrip | team/orchestrator.py:376-409 | a reply whose last "```json" block holds a non-empty object yields exactly that object |
| Contract.BraceFallback | team/orchestrator.py:406-423 | without a fence, the contract is the decoding of the text from the last "{" to the last "}" |
| Contract.StripStrings | team/orchestrator.py:433-434 | the result holds exactly the stripped string items of the list, each stripped |
| Contract.NonEmpty | team/orchestrator.py:452 | the filter keeps exactly the non-empty members |
| Contract.EntryPaths | team/orchestrator.py:432-451 | the paths one artifact entry contributes are stripped |
| Contract.ArtifactListPaths | team/orchestrator.py:431-452 | a path is listed exactly when it is non-empty and some entry contributes it |
| Contract.ArtifactPaths | team/orchestrator.py:426-452 | no list gives no paths; otherwise a path is listed exactly when it is non-empty and some artifact entry contributes it |
| Contract.StrippedStr | team/orchestrator.py:468-473 | a non-blank string yields itself stripped, anything else nothing |
| Contract.ValueStrings | team/orchestrator.py:471-477 | a string is taken exactly when it is non-blank and the value is a string that strips to it or a list with such a string item |
| Contract.TypedValues | team/orchestrator.py:461-477 | a string is contributed exactly when the artifact is an object of the given type and the string is non-blank and is its stripped "path" string, its stripped "value" string or a stripped string item of its "value" list |
| Contract.ValuesForType | team/orchestrator.py:460-479 | a string is in the result exactly when some artifact of the list contributes it; each is non-blank and stripped |
| Contract.ArtifactValuesForType | team/orchestrator.py:455-479 | nothing unless "artifacts" is a list; then a string is in the result exactly when some artifact of the list contributes it; each is non-blank and stripped |
| Contract.AnyFail | team/orchestrator.py:487-490 | true exactly when some criterion mentions a failure marker |
| Contract.AnyPass | team/orchestrator.py:491 | true exactly when some criterion mentions "pass" |
| Contract.InferAcceptanceStatus | team/orchestrator.py:482-499 | met, partial, not_met and unknown, each in both directions, by which criteria mention a pass and which a failure |
| Contract.MissingFieldErrors | team/orchestrator.py:604-606 | every error is a missing-field message, and there is none exactly when every required field is present |
| Contract.MissingFieldErrorsExact | team/orchestrator.py:604-606 | the message for field f appears exactly when f is required and absent |
| Contract.TaskIdErrors | team/orchestrator.py:608-610 | a task_id message appears exactly when the declared task_id is non-empty and differs |
| Contract.OwnerErrors | team/orchestrator.py:612-614 | an owner message appears exactly when the declared owner is non-empty and differs |
| Contract.StatusErrors | team/orchestrator.py:616-618 | a status message appears exactly when a declared status is outside the allowed set |
| Contract.ListError | team/orchestrator.py:620-634 | the one message appears exactly when the value is not a non-empty list |
| Contract.AllNonBlankStr | team/orchestrator.py:642-645 | true exactly when every item is a non-blank string |
| Contract.ActionItemErrors | team/orchestrator.py:636-647 | an action entry has no errors exactly when it is valid |
| Contract.ActionListErrors | team/orchestrator.py:638-647 | the entries have no errors exactly when all of them are valid |
| Contract.ActionErrors | team/orchestrator.py:630-647 | the not-a-list message appears exactly when the value is not a non-empty list, and there is no error exactly when it is one of valid entries |
| Contract.PathError | team/orchestrator.py:649-658 | a required path has no error exactly when it is satisfied |
| Contract.PathErrors | team/orchestrator.py:649-658 | there is no path error exactly when every required path is satisfied |
| Contract.ValidateOutputContract | team/orchestrator.py:599-602 | a missing or empty contract yields exactly the one missing-footer error |
| Contract.ValidateOutputContractEmptyIff | team/orchestrator.py:599-659 | no error exactly when a non-empty contract meets every rule |
| Contract.MissingFieldReported | team/orchestrator.py:604-606 | in the full validation, a missing field is reported exactly when the field is required and absent |
| Contract.TaskIdMismatchReported | team/orchestrator.py:608-610 | in the full validation, a task_id mismatch is reported exactly when a non-empty declared task_id differs |
| Contract.OwnerMismatchReported | team/orchestrator.py:612-614 | in the full validation, an owner mismatch is reported exactly when a non-empty declared owner differs |
| Contract.ArtifactsListReported | team/orchestrator.py:620-622 | the artifacts message appears exactly when artifacts is not a non-empty list |
| Contract.AcceptanceListReported | team/orchestrator.py:624-626 | the acceptance message appears exactly when acceptance_criteria is not a non-empty list |
| Contract.HandoffListReported | team/orchestrator.py:628-630 | the handoff message appears exactly when handoff_to is not a non-empty list |
| Contract.ActionsListReported | team/orchestrator.py:632-634 | the action-items message appears exactly when next_role_action_items is not a non-empty list |
| Contract.InAcross | team/orchestrator.py:599-659 | a message is in the validation exactly when one of the separate checks produced it |
| Contract.ReportsAcross | team/orchestrator.py:599-659 | a message family is reported exactly when one of the separate checks reports it |
| Contract.PathErrorsExact | team/orchestrator.py:649-658 | a missing-path message for q appears exactly when q is required, is not a directory pattern and is not listed |
| Contract.RequiredPathReported | team/orchestrator.py:649-658 | in the full validation, q is reported missing exactly when the role requires it, it is not a directory pattern and the contract does not list it |
| Contract.AnyContained | team/orchestrator.py:666 | true exactly when one of the alternatives occurs in the text |
| Contract.SectionErrors | team/orchestrator.py:662-668 | no error exactly when every section is present |
| Contract.SectionErrorsExact | team/orchestrator.py:662-668 | a section is reported missing exactly when it is listed and none of its alternatives occurs |
| Contract.ValidateReportStructure | team/orchestrator.py:662-668 | the report has no error exactly when every required section is present, case-insensitively; each missing one is reported by name |
| Contract.ValidateTaskOutput | team/orchestrator.py:671-674 | a reply passes exactly when its contract is valid and every report section is present |
| Contract.Strings | team/orchestrator.py:515-519 | no more strings than the list has members |
| Contract.StringsOf | team/orchestrator.py:515-519 | no more strings than the list has members |
| Contract.NonBlankStrings | team/orchestrator.py:523-545 | only non-blank strings are kept |
| Contract.NonBlankOf | team/orchestrator.py:523-545 | only non-blank strings are kept; none exactly when the list has none; the first is the first non-blank string of the list |
| Contract.Take | team/orchestrator.py:583-584 | items[:n] is a prefix of length min(n, len) |
| Contract.EntryActions | team/orchestrator.py:550-560 | an entry contributes a string exactly when it is an object whose role is the next owner (any object while there is none), its "items" is a list and the string is a non-blank stripped string item of it |
| Contract.ActionsFrom | team/orchestrator.py:549-560 | every action collected is non-blank and stripped |
| Contract.ActionsFromMembers | team/orchestrator.py:549-560 | an action is collected exactly when some entry contributes it |
| Contract.ActionsFromEmpty | team/orchestrator.py:549-560 | nothing is collected exactly when no entry contributes anything |
| Contract.NextActions | team/orchestrator.py:547-562 | at least one action: the fallback when no entry contributes, otherwise exactly the actions the entries contribute |
| Contract.FooterNextOwner | team/orchestrator.py:539-545 | specifies CompressionFooter (build_task_compression_summary): the next owner is empty exactly when handoff_to names no non-blank string, and otherwise is the first one |
| Contract.FooterNextActions | team/orchestrator.py:547-562 | specifies CompressionFooter: the compression record carries the fallback when no entry for its next owner has a non-blank item, otherwise exactly the stripped non-blank items of the entries addressed to that owner |
| Contract.FooterBounds | team/orchestrator.py:523-537 | specifies CompressionFooter: at most three risks and three open questions are kept, each non-blank |
| TaskGraph.IdNumber | team/orchestrator.py:848 | the number read from an id is never negative |
| TaskGraph.IdNumbers | team/orchestrator.py:848 | one parsed number per id |
| TaskGraph.MaxParsedFacts | team/orchestrator.py:848 | the maximum exists exactly when every id parsed; it bounds them all and is one of them |
| TaskGraph.MaxIdNumberFacts | team/orchestrator.py:848 | over a non-empty list of ids, the maximum exists exactly when every id carries a number, and then bounds them all |
| TaskGraph.NextNumber | team/orchestrator.py:844-849 | a next number exists exactly when every id carries a number |
| TaskGraph.NextId | team/orchestrator.py:844-867 | a next id exists exactly when every id carries a number |
| TaskGraph.FormatIdNumber | team/orchestrator.py:848-849 | the number of a formatted id reads back |
| TaskGraph.NextIdNumber | team/orchestrator.py:844-867 | the new id carries the next number, which is above every number in use |
| TaskGraph.NextNumberStep | team/orchestrator.py:844-867 | allocating an id moves the counter on by exactly one |
| TaskGraph.MaxParsedTop | team/orchestrator.py:848 | a new largest number becomes the maximum |
| TaskGraph.Consecutive | team/orchestrator.py:932-962 | k successive allocations hand out k ids |
| TaskGraph.ConsecutiveNumbers | team/orchestrator.py:932-962 | the i-th of k successive allocations carries number first + i |
| TaskGraph.ConsecutiveFresh | team/orchestrator.py:932-962 | successive allocations hand out ids that are new and pairwise distinct |
| TaskGraph.NextIdFresh | team/orchestrator.py:844-867 | the new id parses, is above every id in use and is not among them |
| TaskGraph.AboveAll | team/orchestrator.py:844-867 | an id numbered above all others is new, and the list stays numbered |
| TaskGraph.FirstIds | team/orchestrator.py:845-846 | with no ids yet, the first id is prefix-0001 |
| TaskGraph.TaskIds | team/orchestrator.py:848 | the ids of the tasks, position by position |
| TaskGraph.PipelineIds | team/orchestrator.py:857 | the ids of the pipelines, position by position |
| TaskGraph.DebateIds | team/orchestrator.py:866 | the ids of the debates, position by position |
| TaskGraph.FindTask | team/orchestrator.py:1071-1075 | the index of the first task with the id; None exactly when no task has it |
| TaskGraph.TaskDependencies | team/orchestrator.py:1092-1097 | one dependency per listed entry, none when the entry is not a list |
| TaskGraph.AllDependenciesDone | team/orchestrator.py:1100-1105 | true exactly when every dependency is done |
| TaskGraph.ReadyIff | team/orchestrator.py:1100-1105 | specifies IsTaskReady (is_task_ready): a task is ready exactly when each dependency names a task whose first occurrence is done |
| TaskGraph.FirstEligible | team/orchestrator.py:1108-1112 | the first eligible task at or after the start; None exactly when there is none |
| TaskGraph.NextQueuedTask | team/orchestrator.py:1108-1112 | the first task that is queued, not deferred and ready; None exactly when there is none |
| TaskGraph.BlockedAmong | team/orchestrator.py:1115-1120 | exactly the blocked tasks of the list |
| TaskGraph.QueuedButBlocked | team/orchestrator.py:1115-1120 | exactly the queued tasks that are deferred or wait on a dependency |
| TaskGraph.QueuePartition | team/orchestrator.py:1108-1120 | a queued task is eligible exactly when it is not blocked; no next task means every queued task is blocked |
| TaskGraph.SameSessionAfterStore | team/orchestrator.py:315-320 | specifies SameSessionModel (_same_session_model): a session stored for a normalised backend and model is found again for them |
| TaskGraph.LegacySessionIsCodex | team/orchestrator.py:318-319 | a session stored without a backend belongs to codex |
| TaskGraph.ObserveAll | team/orchestrator.py:1519-1525 | one observation per listed id, in order |
| TaskGraph.AggregateCases | team/orchestrator.py:1519-1530 | specifies AggregateStatus, the group status rule: failed, done, running, in progress and queued, each in both directions, by which statuses occur |
| TaskGraph.AllDoneIff | team/orchestrator.py:1526-1527 | all done exactly when every observation is done |
| TaskGraph.AggregateIgnoresOrder | team/orchestrator.py:1519-1530 | the group status depends only on which statuses occur, not on their order |
| TaskGraph.Prefix | team/orchestrator.py:1240-1250 | s[:n] is a prefix of the text no longer than n |
| TaskGraph.HandoffChunk | team/orchestrator.py:1222-1255 | a chunk is non-empty and exists only for a dependency that names a task |
| TaskGraph.HandoffChunks | team/orchestrator.py:1215-1260 | at most one chunk per dependency, none empty; none exactly when no dependency gives one |
| TaskGraph.HandoffEmptyIff | team/orchestrator.py:1215-1260 | specifies HandoffContext (build_handoff_context): the handoff context is empty exactly when no dependency of the task gives a chunk |
| StateStore.MigrateRoleFacts | team/orchestrator.py:764-775 | specifies MigrateRole: a record changes exactly when it needs migration; migrating twice is migrating once; a migrated record needs nothing |
| StateStore.WithMetadata | team/orchestrator.py:781-784 | a task leaves with a metadata object |
| StateStore.WithMetadataAll | team/orchestrator.py:781-784 | each task gains metadata in its own place |
| StateStore.WithRoles | team/orchestrator.py:752-762 | every configured id gains a fresh record, and the existing records are kept |
| StateStore.MigrateRoles | team/orchestrator.py:764-775 | the same roles, each record migrated |
| StateStore.WithRolesStep | team/orchestrator.py:752-762 | registering one more id is one ensure_role |
| StateStore.EnsuredRole | team/orchestrator.py:870-879 | the role gains a record, fresh when it was new, and every other record is kept |
| StateStore.StageDependencies | team/orchestrator.py:940-950 | a stage task reads back exactly the dependency ids it was given |
| StateStore.DebateDependencies | team/orchestrator.py:1004-1035 | a debate task reads back exactly the dependency ids it was given |
| StateStore.Stripped | team/orchestrator.py:895-896 | one stored text per given text |
| StateStore.RetriedDeferral | team/orchestrator.py:304-312 | specifies Retried (set_task_retry) and IsTaskDeferred (is_task_deferred): a retried task is queued, its retry instant is max(minutes, 1) minutes ahead, and it counts as deferred exactly until then |
| StateStore.CountRunning | team/orchestrator.py:1491-1505 | there are no more running tasks than tasks |
| StateStore.CountRunningZero | team/orchestrator.py:1491-1505 | the count is zero exactly when no task is running |
| StateStore.RecoveryLeavesNothingRunning | team/orchestrator.py:1491-1505 | specifies Recovered (recover_inflight_tasks): after recovery nothing is running; a task that was running is queued with no start or finish instant and the recovery reason as its error; every other task is untouched |
| StateStore.FindPipeline | team/orchestrator.py:1078-1082 | the index of the first pipeline with the id; None exactly when none has it |
| StateStore.FindDebate | team/orchestrator.py:1085-1089 | the index of the first debate with the id; None exactly when none has it |
| StateStore.SomeKeyMissing | team/orchestrator.py:732-750 | some key is missing exactly when one of the six is |
| StateStore.SchemaChangeIff | team/orchestrator.py:729-786 | ensure_state_schema reports a change exactly when the document was not yet in migrated form |
| StateStore.SchemaResult | team/orchestrator.py:729-786 | the document ensure_state_schema leaves is in migrated form |
| StateStore.StageTitles | team/orchestrator.py:932-940 | one title per stage |
| StateStore.StageDescriptions | team/orchestrator.py:932-940 | one description per stage |
| StateStore.StageTextsAt | team/orchestrator.py:932-940 | stage i's title and description are built from stage i's role, its position and the stage count |
| StateStore.StageTasks | team/orchestrator.py:932-962 | one task per stage enqueued so far |
| StateStore.StageTasksAt | team/orchestrator.py:932-962 | element i of the enqueued stages is stage i's task |
| StateStore.PipelineChain | team/orchestrator.py:943-961 | the stage tasks carry the allocated ids in order, are queued on their stage's role, and the first depends on nothing while each later one depends exactly on the one before it |
| StateStore.PositionTitles | team/orchestrator.py:999-1020 | one title per participant |
| StateStore.PositionDescriptions | team/orchestrator.py:999-1020 | one description per participant |
| StateStore.PositionTextsAt | team/orchestrator.py:999-1012 | participant i's title and description are built from participant i's role and the topic |
| StateStore.PositionTasks | team/orchestrator.py:999-1020 | one task per participant enqueued so far |
| StateStore.PositionTasksAt | team/orchestrator.py:999-1020 | element i of the participant tasks is participant i's position task under its own id |
| StateStore.DebateFanIn | team/orchestrator.py:999-1020 | the participant tasks carry the allocated ids in order, are queued on their participant's role and depend on nothing, so they can run in any order |
| StateStore.ModeratorWaitsForAll | team/orchestrator.py:1022-1041 | the moderator task depends exactly on every participant task of its debate |
| StateStore.EnqueuedIds | team/orchestrator.py:882-917 | an enqueued task's id is new, the ids stay numbered and the counter moves on by one |
| StateStore.TaskIdStep | team/orchestrator.py:932-962 | the id of one more enqueued task extends the run of consecutive ids |
| StateStore.StageStep | team/orchestrator.py:938-961 | the task enqueued for the next stage extends the stage tasks enqueued so far |
| StateStore.StageLoopStep | team/orchestrator.py:932-962 | one pass of the stage loop allocates the next consecutive id and keeps the loop invariant |
| StateStore.StageProgress | team/orchestrator.py:932-962 | one pass of the stage loop keeps its invariant |
| StateStore.StagesStart | team/orchestrator.py:932 | the stage loop's invariant holds before the first stage |
| StateStore.StagesDone | team/orchestrator.py:962 | after the last stage, every stage task is enqueued and every stage role has a record |
| StateStore.PositionProgress | team/orchestrator.py:999-1020 | one pass of the participant loop keeps its invariant |
| StateStore.PositionLoopStep | team/orchestrator.py:999-1020 | one pass of the participant loop allocates the next consecutive id and keeps the loop invariant |
| StateStore.PositionsStart | team/orchestrator.py:999 | the participant loop's invariant holds before the first participant |
| StateStore.PositionsDone | team/orchestrator.py:1020 | after the last participant, every position task is enqueued |
| StateStore.RuntimeState.constructor | team/orchestrator.py:701-726 | version 3, stopped, the given config, a fresh record for each configured role, no tasks, pipelines or debates |
| StateStore.RuntimeState.EnsureStateSchema | team/orchestrator.py:729-786 | each missing key restored, every configured role present, every record migrated, every task given metadata; changed exactly when any of that did something |
| StateStore.RuntimeState.RestoreTopLevelKeys | team/orchestrator.py:732-750 | exactly the missing top-level keys take their defaults, and the change is reported when one was missing |
| StateStore.RuntimeState.RestoreTasksKey | team/orchestrator.py:777-779 | a missing task list becomes empty, and the change is reported |
| StateStore.RuntimeState.AddConfiguredRoles | team/orchestrator.py:752-762 | every configured role has a record, and a change is reported exactly when one was new |
| StateStore.RuntimeState.MigrateRoleRecords | team/orchestrator.py:764-775 | every record migrated, and a change reported exactly when one needed it |
| StateStore.RuntimeState.FillTaskMetadata | team/orchestrator.py:781-784 | every task has metadata, and a change is reported exactly when one lacked it |
| StateStore.RuntimeState.EnsureRole | team/orchestrator.py:870-879 | the role has a record, fresh when new, and nothing else changes |
| StateStore.RuntimeState.EnqueueTask | team/orchestrator.py:882-917 | one queued task appended under the next free id, new among the ids, with stripped texts, and the role registered |
| StateStore.RuntimeState.EnqueueStage | team/orchestrator.py:938-961 | one stage enqueued under the next consecutive id, keeping the stage loop invariant |
| StateStore.RuntimeState.EnqueueStages | team/orchestrator.py:932-962 | one task per stage appended under consecutive new ids, each depending on the previous stage |
| StateStore.RuntimeState.AppendPipeline | team/orchestrator.py:964-983 | the pipeline is appended and the ids stay numbered |
| StateStore.RuntimeState.CreatePipeline | team/orchestrator.py:920-985 | a queued pipeline under the next free id, whose task list is the stage tasks enqueued in stage order |
| StateStore.RuntimeState.EnqueuePositions | team/orchestrator.py:999-1020 | one position task per participant appended under consecutive new ids, none with dependencies |
| StateStore.RuntimeState.EnqueuePosition | team/orchestrator.py:999-1020 | one position task enqueued under the next consecutive id, keeping the participant loop invariant |
| StateStore.RuntimeState.AppendDebate | team/orchestrator.py:1043-1066 | the debate is appended and the ids stay numbered |
| StateStore.RuntimeState.CreateDebate | team/orchestrator.py:988-1068 | a queued debate under the next free id: the participant tasks, then the moderator task that waits for all of them |
| StateStore.RuntimeState.SetTaskRetry | team/orchestrator.py:304-312 | only task i changes, and it becomes the retried task |
| StateStore.RuntimeState.RecoverInflightTasks | team/orchestrator.py:1491-1505 | every running task is queued again, the count of those is returned, and nothing is running afterwards |
| StateStore.RuntimeState.ObserveTasks | team/orchestrator.py:1519-1525 | the observed status of each listed id |
| StateStore.RuntimeState.RecomputePipelineStatus | team/orchestrator.py:1508-1546 | an unknown pipeline changes nothing; otherwise its status becomes the aggregate of its tasks' statuses |
| StateStore.RuntimeState.RecomputeDebateStatus | team/orchestrator.py:1554-1592 | an unknown debate changes nothing; otherwise its status becomes the aggregate of its tasks' statuses |
| Dispatch.FormatsStay | team/orchestrator.py:1844-1898 | once the format loop has stopped, further passes change nothing |
| Dispatch.FormatsFacts | team/orchestrator.py:1844-1898 | each pass makes at most one run; success means a zero exit with no contract errors; a stop without success comes from a non-zero exit |
| Dispatch.Plan | team/orchestrator.py:1819-1822 | one attempted entry per chain entry |
| Dispatch.Sessions | team/orchestrator.py:1824-1828 | one session choice per attempted entry |
| Dispatch.PlanAt | team/orchestrator.py:1820-1822 | entry i is attempted with its normalised backend and stripped model |
| Dispatch.SessionsAt | team/orchestrator.py:1824-1828 | entry i resumes the stored session exactly when it was opened on that backend and model |
| Dispatch.ChainStays | team/orchestrator.py:1819-1915 | once the chain loop has stopped, further entries change nothing |
| Dispatch.ChainFacts | team/orchestrator.py:1819-1915 | the chain loop stops exactly on a valid reply, which it then holds; without success the role record is untouched; at most one round of format attempts per attempted entry, and no more exhausted entries than attempted ones |
| Dispatch.ChainStep | team/orchestrator.py:1819-1915 | one pass of the chain loop, from any run that satisfies the loop invariant, satisfies it for one more entry |
| Dispatch.StepCounts | team/orchestrator.py:1903-1904 | an entry that runs is recorded as attempted, and as exhausted exactly when it hit a quota error |
| Dispatch.ExhaustedIff | team/orchestrator.py:1970-1973 | every attempted entry is exhausted exactly when each of them ended on a quota error |
| Dispatch.ExhaustedStep | team/orchestrator.py:1903-1904 | one pass of the chain loop adds an entry to the exhausted list exactly when it is attempted and ends on a quota error, which keeps ExhaustedIff |
| Dispatch.ChainCallsBound | team/orchestrator.py:1819-1898 | a chain makes at most one round of format attempts per entry |
| Dispatch.AttemptsBound | team/orchestrator.py:1819-1898 | a task makes at most max(cap, 1) times (retries + 1) agent runs |
| Dispatch.OutcomeCases | team/orchestrator.py:1916-2045 | specifies Concluded and ExitCode: exactly one of done, deferred (queued again) and failed, each in both directions; done and deferred return 0 and a failure returns non-zero |
| Dispatch.DispatchVerdict | team/orchestrator.py:1780-2045 | for a task: done exactly when the final reply exited 0 with a contract it passes; deferred exactly when every model hit a quota and deferral is on |
| Dispatch.DeferredWaits | team/orchestrator.py:1973-1982 | a deferred task is queued, waits max(minutes, 1) minutes and records the exhausted models |
| Dispatch.RunPass | team/orchestrator.py:1845-1897 | one pass of the format loop is the next state of the loop function |
| Dispatch.RunFormats | team/orchestrator.py:1841-1898 | the format loop of one entry computes the loop function to the end |
| Dispatch.EntryToAttempt | team/orchestrator.py:1820-1828 | entry i as attempted, with the session it resumes |
| Dispatch.RunEntry | team/orchestrator.py:1819-1915 | one pass of the chain loop is the next state of the chain function |
| Dispatch.RunModelChain | team/orchestrator.py:1819-1915 | the chain loop computes the chain function to the end |
| Dispatch.StartTask | team/orchestrator.py:1781-1793 | the role registered and busy, task i running since now with no retry instant, nothing else changed |
| Dispatch.RecordPipeline | team/orchestrator.py:2028-2032 | a failed task's error recorded on its pipeline and the pipeline status recomputed, nothing else changed |
| Dispatch.RecordDebate | team/orchestrator.py:2034-2038 | a failed task's error recorded on its debate and the debate status recomputed, nothing else changed |
| Dispatch.ReturnCode | team/orchestrator.py:2041-2045 | 0 for a done or deferred task, the runner's non-zero code otherwise, else 1 |
| Dispatch.FinishTask | team/orchestrator.py:1916-2045 | the outcome of the chain loop recorded on the task, the role released, and the pipeline and debate refreshed |
| Dispatch.DispatchTaskObject | team/orchestrator.py:1780-2045 | specifies DispatchedAt: the state after running task i is the dispatch relation of the old state, with the number of agent runs |
| Dispatch.PipelinesAfterShape | team/orchestrator.py:2028-2032 | recording an outcome keeps every pipeline's id and task list |
| Dispatch.DebatesAfterShape | team/orchestrator.py:2034-2038 | recording an outcome keeps every debate's id and task list |
| Dispatch.FinishedEffect | team/orchestrator.py:1916-2045 | only task i changes: it is done, failed, or queued again and deferred; the code is 0 exactly for done and queued; the ids and group shapes are kept |
| Dispatch.DispatchEffect | team/orchestrator.py:1780-2045 | a dispatched task is no longer waiting: done, failed, or queued again with a retry instant ahead; no other task changes |
| Drivers.Choose | team/orchestrator.py:2048-2090 | a task chosen is eligible, and a team that is not running refuses with 1 |
| Drivers.ChooseNamed | team/orchestrator.py:2055-2069 | a named task is run exactly when it is found and eligible; the command returns 0 without running exactly when it is queued but deferred |
| Drivers.ChooseUnnamed | team/orchestrator.py:2070-2088 | without a name, the next queued task is run, and with none the command returns 0 |
| Drivers.FindOwnId | team/orchestrator.py:1071-1075 | with distinct ids a task is found at its own index |
| Drivers.ChooseNext | team/orchestrator.py:2232 | dispatching the next ready task by its id chooses that task |
| Drivers.DispatchCommand | team/orchestrator.py:2048-2090 | the state after the command is the dispatch-by-choice relation of the old state |
| Drivers.FindTaskSameIds | team/orchestrator.py:1071-1075 | a lookup by id sees only the ids |
| Drivers.SettledKept | team/orchestrator.py:2115-2126 | a settled task (done, or queued with its retry instant still ahead) stays settled when one other position changes, the ids are kept and that position does not become unsettled |
| Drivers.DispatchedByEffect | team/orchestrator.py:2048-2090 | ids and group shapes are kept, settled tasks stay settled, a named task that returns 0 is settled, and the number of runs is bounded |
| Drivers.DispatchedByIff | team/orchestrator.py:2048-2090 | the dispatch relation holds of exactly one outcome, the one Dispatched computes |
| Drivers.DispatchedOutcome | team/orchestrator.py:2048-2090 | Dispatched's outcome satisfies the dispatch relation and never lowers the call number |
| Drivers.RunTaskList | team/orchestrator.py:2106-2134 | the new state, code and next call number are exactly ListRun of the old state: each listed id visited in turn, in the list order, stopping at the first visit that returns non-zero |
| Drivers.VisitTask | team/orchestrator.py:2107-2134 | the new state, code and next call number are exactly Visited of the old state: a missing or failed task changes nothing and returns 1 under stop-on-failure, else 0; a done task changes nothing; any other task is dispatched by id |
| Drivers.VisitedEffect | team/orchestrator.py:2107-2134 | one visit keeps the ids and the group shapes, keeps settled tasks settled, returns non-zero only under stop-on-failure, leaves its task settled when it goes on under stop-on-failure, and makes at most CallBound runner calls |
| Drivers.ListRunEffect | team/orchestrator.py:2106-2134 | the whole list keeps the ids and group shapes and settled tasks; without stop-on-failure it returns 0; with it a 0 means every listed task is settled; at most CallBound runner calls per listed id |
| Drivers.ListVisitOutcome | team/orchestrator.py:2106-2134 | the run over a non-empty list is its first visit, stopping there on a non-zero code and otherwise going on with the rest of the list from the state the visit left |
| Drivers.ListEffectAfter | team/orchestrator.py:2106-2134 | a first visit with the visit facts, followed by the run over the rest, has the facts of the whole list |
| Drivers.ListRunVisit | team/orchestrator.py:2106-2134 | the run from position k is the visit of the k-th id, then the run from position k + 1 when that visit returns 0 |
| Drivers.RunPipelineById | team/orchestrator.py:2093-2141 | a team not running or an unknown pipeline returns 1 and changes nothing; otherwise the tasks, roles, debates, code and next call number are exactly ListRun over the pipeline's ids, and a code of 0 refreshes the pipeline status to the aggregate of its tasks; without stop-on-failure the code is 0, under it a code of 0 leaves every listed task settled; at most CallBound runner calls per listed task |
| Drivers.RunDebateById | team/orchestrator.py:2148-2196 | a team not running or an unknown debate returns 1 and changes nothing; otherwise the tasks, roles, pipelines, code and next call number are exactly ListRun over the debate's ids, and a code of 0 refreshes the debate status to the aggregate of its tasks; without stop-on-failure the code is 0, under it a code of 0 leaves every listed task settled; at most CallBound runner calls per listed task |
| Drivers.FindPipelineSame | team/orchestrator.py:1078-1082 | a pipeline lookup sees only the ids |
| Drivers.FindDebateSame | team/orchestrator.py:1085-1089 | a debate lookup sees only the ids |
| Drivers.SettledAggregate | team/orchestrator.py:1519-1530 | a group whose tasks are all settled or queued aggregates to done, in progress or queued |
| Drivers.PendingDrop | team/orchestrator.py:2212-2233 | taking one waiting task out lowers the number of waiting tasks by one |
| Drivers.DrainLimit | team/orchestrator.py:2209 | the limit is positive, and is the requested count when that is positive |
| Drivers.DrainStep | team/orchestrator.py:2212-2233 | one drain step with distinct ids runs the next ready task, which stops waiting |
| Drivers.DispatchNext | team/orchestrator.py:2214-2233 | the new state, code and next call number are exactly Dispatched of the old state for the next ready task's id |
| Drivers.DispatchNextEffect | team/orchestrator.py:2214-2233 | dispatching the next ready task keeps the ids and group shapes, lowers the waiting count by one when ids are distinct, and makes at most CallBound runner calls |
| Drivers.DrainRunStop | team/orchestrator.py:2212-2217 | the drain stops with code 0 when the limit is reached or no task is ready |
| Drivers.DrainRunPass | team/orchestrator.py:2235-2239 | one drain pass: the outcome of the dispatch when it failed without continue-on-failure, otherwise the drain from the state it left, with one task more executed and one less allowed |
| Drivers.DrainPassOutcome | team/orchestrator.py:2214-2239 | the same pass, with the dispatch facts of its outcome |
| Drivers.DrainRunEffect | team/orchestrator.py:2212-2239 | the drain executes between none and the allowed number of tasks; a clean stop below the limit means no task is ready; a non-zero code only without continue-on-failure; with distinct ids each execution removes a waiting task; ids and group shapes are kept |
| Drivers.DrainEffectAfter | team/orchestrator.py:2212-2239 | a pass with the dispatch facts, followed by the rest of the drain, has the drain facts from the start |
| Drivers.DrainOne | team/orchestrator.py:2214-2239 | one dispatch of the loop moves the drain relation one pass on: the final drain from the old state equals the outcome or the drain from the new state |
| Drivers.DrainQueue | team/orchestrator.py:2203-2239 | a team not running returns 1 and changes nothing; otherwise the new state, code, count and next call number are exactly DrainRun of the old state with the drain limit; the count stays within the limit (and within the waiting tasks when ids are distinct); a stop below the limit with code 0 means no task is ready; a non-zero code only without continue-on-failure; ids and groups keep their shape |
| Drivers.DrainLoop | team/orchestrator.py:2212-2236 | the new state, code, count and next call number are exactly DrainRun of the old state: the next ready task dispatched by id until none is ready, the limit is reached, or a non-zero code without continue-on-failure |
| ToolJobs.IdSuffix | team/tools/adapter.py:188 | the suffix read from an id is never negative |
| ToolJobs.Suffixes | team/tools/adapter.py:188 | one suffix per job, each read from its id |
| ToolJobs.JobIdSuffix | team/tools/adapter.py:188-189 | the suffix of a formatted job id reads back |
| ToolJobs.NextJobIdFresh | team/tools/adapter.py:184-189 | specifies NextJobId (next_job_id): no jobs give TOOL-0001; an id exists exactly when every suffix parses; it is above them all and carried by no job |
| ToolJobs.RFindLast | team/tools/adapter.py:294 | the last occurrence of a character is the one with none after it |
| ToolJobs.LowerNoSlash | team/tools/adapter.py:205 | lower-casing adds no slash |
| ToolJobs.FileNameOf | team/tools/adapter.py:294 | the file name of dir/name is name, for a name without slashes that is neither empty nor "." (the name skips a trailing slash or "." component) |
| ToolJobs.SuffixOf | team/tools/adapter.py:294 | the suffix of stem + ext is ext, for a plain extension |
| ToolJobs.DefaultPathMime | team/tools/adapter.py:200-205 | specifies DefaultOutputPath (default_output_path) with InferMime: the MIME type of a default output path is the one its configured extension names |
| ToolJobs.PathMime | team/tools/adapter.py:293-305 | specifies InferMime (infer_mime): a path <dir>/<tool>_<id><ext> with a plain extension has the MIME type of that extension, whatever the directory |
| ToolJobs.OptionalText | team/tools/adapter.py:244-245 | `s.strip() or None`: a value only when the stripped text is non-empty |
| ToolJobs.SubmitFacts | team/tools/adapter.py:208-261 | specifies Submit (submit_job): an unknown tool exactly when there is no config; a submission exactly when the config exists, an id is allocatable and the path is inside; a submitted job is queued, with no attempts, under a fresh id, at the resolved path |
| ToolJobs.NextReadyJob | team/tools/adapter.py:485-489 | the first job whose status is exactly "queued"; None exactly when there is none |
| ToolJobs.MaxAttempts | team/tools/adapter.py:496 | at least 1 and at least the configured number |
| ToolJobs.OtherAssets | team/tools/adapter.py:332 | filtering never adds an entry |
| ToolJobs.Upserted | team/tools/adapter.py:332-334 | the manifest is never empty after an append |
| ToolJobs.OtherAssetsWithId | team/tools/adapter.py:332 | the filter removes exactly the entries with the job's id |
| ToolJobs.UpsertFacts | team/tools/adapter.py:317-334 | the new entry is last and the only one with its id; other ids keep their entries in order |
| ToolJobs.OtherAssetsOrder | team/tools/adapter.py:332 | the filter keeps exactly the entries with another id, as a subsequence in their old order |
| ToolJobs.UpsertOrder | team/tools/adapter.py:332-333 | the appended manifest is every entry with another id, in its old relative order, followed by the new entry |
| ToolJobs.ProcessFacts | team/tools/adapter.py:492-563 | specifies ProcessStep (process_one_job): nothing is processed exactly when no job is queued; otherwise only the first queued job changes and its attempts go up by one; it is done exactly on success, queued again exactly on a failure with attempts left, and failed exactly on a failure with none left; a success puts a last manifest entry under the job's id, a failure leaves the manifest as it was, and a raised output check leaves the job running |
| ToolJobs.BudgetUpdate | team/tools/adapter.py:566-579 | changing one job changes the budget by the change of its share |
| ToolJobs.ProcessShrinksBudget | team/tools/adapter.py:492-563 | each job taken lowers the remaining attempt budget, so the worker stops |
| ToolJobs.WorkerRunFacts | team/tools/adapter.py:566-579 | a worker run processes at most as many jobs as the attempt budget and never more than max_jobs; stopping on neither an exception nor max_jobs leaves no job queued; no job is added or removed |
| ToolJobs.WorkerStep | team/tools/adapter.py:569-575 | one worker pass below the limit keeps the job count, processes nothing exactly when no job is queued (and then changes nothing), shrinks the attempt budget when it processes a job, and the worker run is that pass followed by the run from the state it left |
| ToolJobs.WorkerEffectAfter | team/tools/adapter.py:569-575 | a worker pass with those facts, followed by the rest of the run, has the worker facts from the start |
| ToolJobs.ProcessStepShape | team/tools/adapter.py:492-501 | process_one_job keeps the job count, and does nothing exactly when no job is queued |
| ToolJobs.SummaryTotal | team/tools/adapter.py:600-606 | specifies SummaryOf (jobs_summary): the counts add up to at most the number of jobs, and to all of them exactly when every stripped status is one of the four |
| ToolJobs.KnownStatusesCounted | team/tools/adapter.py:600-606 | with known statuses every job is counted |
| ToolJobs.JobsSummary | team/tools/adapter.py:600-606 | the loop computes the summary function |
| ToolJobs.ParseKvParams | team/tools/adapter.py:609-617 | the loop computes the parameter function |
| ToolJobs.KvKeys | team/tools/adapter.py:611-616 | the key each entry gives, in order |
| ToolJobs.LastIndex | team/tools/adapter.py:613-616 | an index found lies within the keys |
| ToolJobs.LastIndexFacts | team/tools/adapter.py:613-616 | the last index holds the key and none after it does; None exactly when the key is absent |
| ToolJobs.KvLookup | team/tools/adapter.py:609-617 | specifies KvParams (parse_kv_params): a key reads the value of the last entry giving that key, none when no entry gives it |
| ToolJobs.KvRoundTrip | team/tools/adapter.py:612-616 | "key=value" reads back as the pair, and a bare entry without "=" as True |
| ToolJobs.JobStore.constructor | team/tools/adapter.py:158-171 | the state load_jobs and read_manifest give when both files are absent: no jobs and an empty manifest |
| ToolJobs.JobStore.SubmitJob | team/tools/adapter.py:208-261 | the submission function's verdict; the job appended on success and nothing changed otherwise |
| ToolJobs.JobStore.AppendManifestAsset | team/tools/adapter.py:308-335 | any entry with the job's id replaced by a new last entry; the jobs untouched |
| ToolJobs.JobStore.ProcessOneJob | team/tools/adapter.py:492-563 | the jobs and the manifest become the processing function's result, and known statuses stay known |
| ToolJobs.JobStore.CancelJob | team/tools/adapter.py:582-597 | cancelled exactly when the first job with the id is queued, which then becomes failed; otherwise nothing changes |
| ToolJobs.Cancelled | team/tools/adapter.py:590-596 | a cancelled job is failed with an error, keeps its id, tool, attempts and output path, and no longer counts against the attempt budget |
| ToolJobs.JobStore.RunWorker | team/tools/adapter.py:566-579 | the count, crash flag, jobs and manifest are exactly WorkerRun of the old store: process_one_job repeated on the numbered executions; at most max_jobs jobs when positive; a stop below the limit without a crash means no job is queued; never more jobs than the attempt budget; known statuses stay known |
| ToolJobs.FindJob | team/tools/adapter.py:585-587 | the first job carrying the id; None exactly when none carries it |
| ToolJobs.FindJobAt | team/tools/adapter.py:585-587 | a job with no earlier bearer of its id is found at its index |
| ToolJobs.FindJobNone | team/tools/adapter.py:585-597 | an id no job carries is not found |

## Left out

- StateStore.RuntimeState.EnqueueTask: requires that every task id parses. Python raises
  in next_task_id (team/orchestrator.py:848) on an id without a number, so the model
  leaves that raise out.
- StateStore.RuntimeState.CreatePipeline: the same requirement for task and pipeline ids
  (team/orchestrator.py:848, 857), where Python raises.
- StateStore.RuntimeState.EnqueueStages: the same requirement on task ids.
- StateStore.RuntimeState.AppendPipeline: requires numbered pipeline ids and the next free
  id (team/orchestrator.py:857).
- StateStore.RuntimeState.CreateDebate: the same requirement for task and debate ids
  (team/orchestrator.py:848, 866).
- StateStore.RuntimeState.EnqueuePositions: the same requirement on task ids.
- StateStore.RuntimeState.AppendDebate: requires numbered debate ids and the next free id
  (team/orchestrator.py:866).
- Text.Lower: ASCII letters only. Python's `str.lower()` and `str.strip()` also act on
  other Unicode letters and spaces, and `lower()` can change the length. The functions
  built on them inherit this: RoleConfig.IsQuotaError, TaskGraph's session check,
  RoleConfig.NormalizeBackend and Contract.InferAcceptanceStatus.
- Text.Strip: ASCII whitespace only, for the same reason.
- StateStore.RetriedDeferral: the retry instant is the integer `now + 60 * minutes` in the
  metadata. The source writes an ISO-8601 string (team/orchestrator.py:306-307) and parses
  it back (line 284-301); the model reads only its own integer form, and has no time zones.
- Text.ParseIntUnsigned: `int()` is modelled on text (an optional sign and decimal digits,
  surrounded by whitespace). Python also accepts digit groups with `_` ("1_000"), which the
  model rejects.
- RoleConfig.PyInt: no floats. JSON numbers are integers, so `int(3.7) == 3` on a
  configured number (max_model_attempts_per_task, the defer minutes, the worker's
  max_attempts) is not modelled.
- StateStore.RuntimeState.SetTaskRetry: a task whose metadata is JSON null is treated as
  having empty metadata. In the source `setdefault` returns that null and the next
  assignment raises (team/orchestrator.py:305, 1789). The dispatcher makes the same
  simplification.
- Persistence (load_state/save_state, the jobs and manifest files), the event log and
  every printed message are not modelled. Each command works on one loaded state.
- Environment variables: MAX_OUTPUT_FORMAT_RETRIES and the default defer minutes are
  parameters or constants.
- The agent runner (run_model_task), the prompt and correction-feedback texts, and the
  task output and compression files are outside the model. Replies come from the `runner`
  oracle, and only the compression record's fields are modelled, not its markdown text.
- JsonValue.QuoteRepr: characters outside ASCII are kept as they are. Python's repr() also
  escapes the non-ASCII characters it does not consider printable (such as U+0080 to U+00A0
  as `\xNN`, U+2028 as `\uNNNN`), which the model does not classify.
- JSON key order: `Put` moves an assigned key to the end, where Python keeps its first
  position. Every lookup agrees.
- The blocked-task listing printed by dispatch and drain_queue (first five, then a count)
  is print output only.
- ToolJobs.JobStore.RunWorker: only `loop=False`. The polling loop with `time.sleep`
  never ends by design.
- The path check `_safe_output_path` (path resolution against the project root) is the
  `inside` oracle. An escaping path in ProcessOneJob appears as the oracle's `Raised`
  outcome.
- The tool renderers (built-in tone and SVG), the shell command tool, the output file's
  existence, digest and size are given by the `Execution` oracle.
- read_config defaults and the worker configuration: the tool table and max_attempts are
  parameters.
- Jobs whose fields are missing or of the wrong type (a non-string status or tool) are
  not modelled.
- ToolJobs.SuffixOf: `Path.suffix` follows the Python 3.12 rule (a dot that is neither
  first nor last in the file name).
- ToolJobs.InferMime: applied to the job's relative output path. The source applies it to
  the resolved path. The file name skips empty and "." components as the path's name does,
  so the two differ only when resolution itself changes the last name (a trailing `..`, a
  symbolic link).
- A tool configuration that is not an object gives empty model and license fields in the
  manifest entry.
