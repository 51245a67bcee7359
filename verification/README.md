# Verified model of Linura's gatekeepers

Linura guards its main branch with a handful of Python checkers. This project models the logic of
five of them in Dafny and proves what each is trusted for.

**Qualification** (`tools/applicable_qualification.py`). GitHub is a function from a clock to
snapshots: every request advances the clock, so PRs, files, runs and jobs may change between any two
reads, and any call may raise. Each attempt of a status post may land, be lost, or land although it
failed. The model follows the tool from the paginator, the glob compiler and gate routing, through
runs, jobs and one evaluation of a PR (`Evaluation`), to the read-only decision (`Decision`) and the
status writer (`Reconcile`). `GitHub.Client` is the stateful client with the per-pass caches; each
method is proved equal to a pure step function, and the theorems are about those functions. The main
results:

- a success receipt is sound end to end (`DecisionSoundness.ReceiptIsSound`);
- over every trace of serialized writer runs a visible success is a justified one
  (`ReconcileTrace.EveryTraceIsSafe`);
- every required gate gets exactly one verdict, so the receipt checks never reject
  (`EvaluationConservation`, `DecisionSoundness`);
- on a world that does not change, caches and double looks are transparent and success is published
  whenever it is due (`EvaluationBatch.CachesAgree`, `QuietWorld`);
- in a batch the subset guards never fire, however the world changes (`EvaluationGuards`).

**Rust scanner** (`tools/check_namespaces.py`). The comment stripper and the item scanner work on
character arrays with a cursor; they are proved against specifications on suffixes, from which
idempotence, preserved layout and the balanced-brace property follow.

**JSON Schema validator** (`scripts/validate_assets.py`). The validator is proved to terminate on
every document whose finite same-instance graph, constructed from the document, is acyclic; to decide
a declarative relation for its subset of JSON Schema 2020-12; and to ignore key order. The code
departs from the standard in `const`, `enum`, `type`, `uniqueItems` and schema-valued
`additionalProperties`, and it ignores some constraining keywords; the conditions under which each
departure makes no difference are exact for the former and for numeric bounds and object sizes
(`JsonEquality`, `JsonSchemaStandard`). For example, comparing constants with the host language's
equality is faithful exactly for constants that hold no boolean, zero or one anywhere. On documents
that meet the conditions, and instances whose floats have a fraction, validation decides the standard
relation (`JsonSchemaDocument.DocumentIsStandard`). Some of the repository's own documents do not meet
them: `schemas/capability-blueprint.v1.schema.json`, `schemas/desired-state.v1.schema.json` and
`schemas/system-graph.v1.schema.json` give a schema for additional properties that the validator never
applies, and `schemas/setup.v1.schema.json` gives a `minimum`.

**Contract stability** (`tools/check_contract_stability.py`). One run compares two trees; the theorem
is about whole release histories.

**Hook analyser** (`tools/check_development_workflow.py`). A small semantics of Python statements
gives meaning to the analysis. A world resolves every unknown. Any foreign code, in a call or behind
an attribute, an operator, a truth test, a loop or an import, may raise, may end the process, and may do
anything to the list if it is handed the list or something that reaches it; an operator hands the list
to its other operands unless they are constants, and an item access hands the index on. The promise is
that a failing hook is never lost, and it has two halves. That `main` then returns nothing but 1 holds
in every world without frame inspection for programs that keep the list discipline
(`HookSoundness.Disciplined`, readable off the text), which is exact for a single expression
(`HookDiscipline.PlainExactly`). That nothing ends the process before the report, and that code which
inspects frames does no harm, cannot be had from the list alone: both hold when the calls are of listed
callees, under the stated assumption that these, the canonical callees and implicit code are tame
(`HookTheorem.Trusted`). `HookDiscipline` and `HookBlindSpots` give whole accepted programs that lose the
failure where a condition is broken, and `HookModule` says when the entry calls the analysed `main`.

Where the source keeps state or loops, the model has a method with the same loop proved against a
function; where it computes, the model has the function. Error messages are kept as short texts.

## Model

| member | source | states |
|---|---|---|
| `DecisionSoundness.ReceiptIsSound` | tools/applicable_qualification.py:2604-2740 | A receipt is sound end to end, in a world that may change between any two reads: the same main-targeting PRs with the same identities were reported before and after; on success each accepted list equals the required list, and each of the two passes proves, from its own reads, that every gate which is mandatory or selected by a changed path or rename source has its newest run for that PR's test merge (parents exactly base then head) completed with success and all required jobs successful, and that the change edits no gate definition or its edits were approved inside that pass |
| `EvaluationSoundness.SuccessIsSound` | tools/applicable_qualification.py:2061-2334 | The same for one evaluation, with or without batch caches and a shared run list: success comes with the PR, its test merge, the complete inventory, the run list and per-gate runs and jobs that GitHub showed in the window of the evaluation, and with an authority guard that passed in it |
| `ReconcileTrace.EveryTraceIsSafe` | tools/applicable_qualification.py:2484-2601 | Over every sequence of serialized runs, each with the contract and authority it loaded, with arbitrary delays, GitHub steps, lost and repeated posts and raising calls: once any post for a head has landed its visible status is pending, failure, or a success that one run of the trace made, that follows the pending post of that run with no other post in between, and that is backed, under the contract and authority of that run, by three equal identity readings around two all-green inspections; before that it is what it was |
| `ReconcileTrace.RunIsSafe` | tools/applicable_qualification.py:2484-2601 | One run appends to the status log copies of its pending post and then copies of at most one final post; without a pending copy it raises and posts nothing, a final success has the whole justification, and the returned outcome tells what was published |
| `ReconcileTrace.RunLeavesSafe` | tools/applicable_qualification.py:2504-2601 | Every exit of a run leaves its head safe unless no attempt of its pending post landed, and leaves every other head alone |
| `ReconcileTrace.ShardRunRevokes` | tools/applicable_qualification.py:2894-2923 | Every head of a shard whose own pending post landed is safe afterwards, whatever happens to the other posts, the head of the hour even when its reconciliation raises or loses its own pending post; heads outside the request are untouched |
| `ReconcileTrace.InvalidateMeans` | tools/applicable_qualification.py:2897-2911 | A head loses its old status if an attempt of its own post lands, whatever the other posts do; every head counted as ready shows pending; heads not listed are untouched |
| `ReconcileTrace.TraceKeepsSound` | tools/applicable_qualification.py:2856-2937 | The invariant of every trace: the log only grows and each success in it was made, after the posts of all earlier runs, by a run that justifies it |
| `ReconcileTrace.StepIsSound` | tools/applicable_qualification.py:2856-2937 | One run, of a head or of a shard, adds no success that its own reads do not justify |
| `DecisionBase.EvidenceTied` | tools/applicable_qualification.py:2604-2668 | The evidence of a pass is about the base and test merge of a reported identity exactly when the PR showed them when the evaluation read it |
| `DecisionBase.ReceiptTied` | tools/applicable_qualification.py:2604-2668 | A success receipt for a PR that shows one base and test merge whenever it can be read is proven, in both passes, on the base that it reports |
| `DecisionBase.SwerveGetsReceipt` | tools/applicable_qualification.py:2617-2668 | Otherwise it need not be: for any two states of a PR, one shown to both discoveries and the other to both passes, the decision returns a success receipt for the base of the one while all evidence is about the other |
| `DecisionSoundness.ChecksNeverReject` | tools/applicable_qualification.py:2671-2740 | The decision returns iff the head is well formed, discoveries and evaluations return and the identities agree: its receipt checks never reject |
| `DecisionSoundness.ReceiptsAccept` | tools/applicable_qualification.py:2671-2727 | The receipt checks accept every list of conserved evaluations and copy number, head, base, required and accepted ids of each, in order |
| `DecisionSoundness.StatesAgree` | tools/applicable_qualification.py:2462-2481 | The aggregate over failure and waiting notes equals the decision over states, and is success exactly when every evaluation is |
| `DecisionSoundness.BatchSound` | tools/applicable_qualification.py:2628-2656 | A batch starts with empty caches, restores the outer ones on every exit, and evaluates every PR with evidence observed inside that batch |
| `EvaluationConservation.EvaluationConserves` | tools/applicable_qualification.py:2061-2334 | Every evaluation that returns is conserved: distinct nonempty required ids that contain the mandatory ones, distinct accepted ids among them, success iff accepted equals required in order, and each required gate in exactly one of accepted, waiting and failures (or a single early refusal) |
| `EvaluationConservation.LoopPartitions` | tools/applicable_qualification.py:2242-2320 | The gate loop splits the required ids, in order, into the ids of the three lists |
| `EvaluationConservation.PartitionSuccess` | tools/applicable_qualification.py:2321-2321 | No failure and no wait iff the accepted ids are all ids in order |
| `EvaluationSoundness.JudgeSound` | tools/applicable_qualification.py:2242-2319 | A gate is accepted only with its newest matching run completed with success and its required jobs observed successful |
| `EvaluationSoundness.ScopeSound` | tools/applicable_qualification.py:2081-2168 | The paths that pass the scope checks were observed, number exactly the declared count, and the rename-aware paths require no gate that the changed paths do not |
| `EvaluationSoundness.MergeSound` | tools/applicable_qualification.py:1193-1217 | An accepted test merge belongs to a PR open against main and its commit has exactly the parents base and head |
| `EvaluationBatch.CachesAgree` | tools/applicable_qualification.py:1108-1121 | On a frozen world, with approvals that do not depend on the time, an evaluation with caches and a shared run list returns what one without them returns, whatever the caches already hold |
| `EvaluationBatch.GuardsNeverFail` | tools/applicable_qualification.py:2137-2146 | In a batch the subset guard cannot fail under any change of the world: both inventories are projections of one fetched list |
| `EvaluationBatch.JobPathsAreOriginal` | tools/applicable_qualification.py:2285-2298 | In a batch the v0.9 gate decides its job mode on exactly the paths of the rename guard, so its own guard cannot fail either |
| `EvaluationGuards.BatchGuardsNeverFire` | tools/applicable_qualification.py:2061-2334 | End to end: from a session with a file cache, under any change of the world, an evaluation raises neither subset error and none of its failure notes carries the text of one, provided the trusted sources do not use those texts themselves |
| `EvaluationGuards.GatesUnguarded` | tools/applicable_qualification.py:2239-2320 | The same for the gate loop: the file list of the batch stays in place through every gate |
| `EvaluationBatch.GuardCanFailOutsideBatch` | tools/applicable_qualification.py:2137-2146 | Outside a batch the guard is needed: for any two file names a world makes it fail |
| `EvaluationBatch.FetchedOnce` | tools/applicable_qualification.py:1108-1121 | In a batch every later read of a PR's files returns the list fetched first and reads nothing |
| `EvaluationBatch.NeverTruncated` | tools/applicable_qualification.py:2100-2132 | When the declared count is honest, an evaluation that gets past the scope saw every entry of the diff, of which there are at most 3,000; otherwise it is a failure |
| `QuietWorld.DecisionIsPlain` | tools/applicable_qualification.py:2604-2740 | On a frozen world whose run list can be fetched, and with approvals that do not depend on the time, the caches, the shared run list, the second pass and the second discovery change nothing: the decision equals the one made by a single plain look |
| `QuietWorld.RunIsPlain` | tools/applicable_qualification.py:2484-2601 | On a frozen world where posts land, with approvals that do not depend on the time, a run publishes exactly the aggregate of plain evaluations, so success is published whenever it is due |
| `SharedHead.SharedMeans` | tools/applicable_qualification.py:2407-2459 | Discovery reports, in ascending order, exactly the openly associated PRs that were open and at the head when looked up, with the identity they showed |
| `SharedHead.EachSound` | tools/applicable_qualification.py:2546-2561 | A pass evaluates every PR of the head, each conserved and each success with its evidence |
| `SharedHead.OpenHeadPrs` | tools/applicable_qualification.py:2407-2459 | Meets the discovery specification, including malformed and duplicate associations and incomplete identities |
| `SharedHead.EvaluatePrs` | tools/applicable_qualification.py:2642-2653 | Evaluates the numbers in order and stops at the first that raises |
| `Decision.DecisionHead` | tools/applicable_qualification.py:2604-2740 | Meets the decision specification: at most eight main-targeting PRs, a second batch only when green, identities compared, receipt checks, overall state |
| `Decision.EvaluateAll` | tools/applicable_qualification.py:2628-2656 | One batch: fresh caches, one run list, and the outer caches restored on every exit |
| `Decision.BuildReceipts` | tools/applicable_qualification.py:2671-2727 | Meets the receipt specification and returns the state of each evaluation |
| `Reconcile.ReconcileHead` | tools/applicable_qualification.py:2484-2601 | Meets the run specification: pending post first, then discovery, size limit, one or two inspections, identities read again, final post |
| `Reconcile.ReconcileHeads` | tools/applicable_qualification.py:2856-2937 | Meets the shard specification: guard, hour selection, invalidation that collects errors, at most one reconciliation |
| `Reconcile.InvalidateHeads` | tools/applicable_qualification.py:2897-2911 | Posts pending for every head, continuing after failures, and returns those whose post returned |
| `Evaluation.EvaluatePr` | tools/applicable_qualification.py:2061-2334 | Meets the evaluation specification on every path, with every read and raised error |
| `Evaluation.ScopeOf` | tools/applicable_qualification.py:2081-2168 | Meets the scope specification: head, declared count, inventories, rename guard |
| `Evaluation.JudgeGate` | tools/applicable_qualification.py:2242-2319 | Meets the gate specification: absent, stale base, unfinished, unknown or failed conclusions, job errors, acceptance |
| `Evaluation.JudgeGates` | tools/applicable_qualification.py:2239-2320 | Runs the gates in order with one tally |
| `Evaluation.ChangedPaths` | tools/applicable_qualification.py:1101-1144 | Sorted distinct destinations, with rename sources on request, from the batch cache or a fresh read |
| `Evaluation.VerifyRequiredJobs` | tools/applicable_qualification.py:1332-1387 | Duplicate names, missing jobs, unsuccessful jobs and the v0.9 mode, as specified over the observed jobs |
| `Evaluation.IndexJobs` | tools/applicable_qualification.py:1354-1360 | Names are indexed exactly, duplicates detected exactly, and with distinct names the indexed job is successful iff the list has a successful job of that name |
| `Evaluation.RequireSuccess` | tools/applicable_qualification.py:1362-1374 | Succeeds iff every required name has a completed, successful job |
| `EvaluationSoundness.VerdictMeans` | tools/applicable_qualification.py:1376-1387 | A job verdict implies distinct names and success of the required jobs and of the jobs of the chosen mode |
| `Evaluation.ReviewedTestMerge` | tools/applicable_qualification.py:1193-1217 | Meets the test-merge specification with its four rejections |
| `GitHub.Client.Files` | tools/applicable_qualification.py:1108-1121 | A cached list is returned without a read; a fresh one is cached in a batch only |
| `GitHub.Client.Jobs` | tools/applicable_qualification.py:1341-1353 | The same for the jobs of a run attempt |
| `GitHub.FilesObserved` | tools/applicable_qualification.py:1108-1121 | Cached or not, an answer was observed since the batch began, and caches only gain entries |
| `GitHub.JobsObserved` | tools/applicable_qualification.py:1341-1353 | The same for jobs |
| `GitHub.ObservedFrozen` | tools/applicable_qualification.py:1056-1098 | On a frozen world every list request observes the same list |
| `GitHub.PublishMeans` | tools/applicable_qualification.py:1006-1054 | A post adds to the log only copies of itself, at most three, and at least one if it does not raise |
| `GitHub.Client.PostStatus` | tools/applicable_qualification.py:1006-1054 | Up to three attempts, repeated only after errors that allow it |
| `Glob.GlobRegex` | tools/applicable_qualification.py:136-164 | Emits the specified expression text, or rejects the pattern |
| `Glob.CompilerPreservesMeaning` | tools/applicable_qualification.py:136-164 | Reading the emitted text back gives an expression whose language is exactly what a direct recursive matcher accepts |
| `Glob.ParseEmitted` | tools/applicable_qualification.py:136-164 | Reading the emitted text gives back the items of the pattern |
| `Glob.MatchBySegments` | tools/applicable_qualification.py:136-164 | Without a double star, a path matches iff path and pattern split on slashes into equally many segments that match pairwise |
| `Routing.PathSelected` | tools/applicable_qualification.py:167-178 | Folds the ordered rules over a safe path |
| `Routing.LastMatchDecides` | tools/applicable_qualification.py:167-178 | The last matching rule decides by its polarity, no match selects nothing, and a safe path raises iff some rule is unsupported |
| `Routing.RequiredGateIds` | tools/applicable_qualification.py:585-599 | Meets the routing specification, errors included |
| `Routing.RequiredMeans` | tools/applicable_qualification.py:585-599 | Returns exactly the applicable gates, each once, in the order of the matrix |
| `Routing.RoutingMonotone` | tools/applicable_qualification.py:585-599 | More paths never require fewer gates |
| `Routing.RoutingDistributes` | tools/applicable_qualification.py:585-599 | The gates of a union of path lists are the union of their gates |
| `Routing.RenameGuard` | tools/applicable_qualification.py:2147-2150 | When rename sources add no gate, routing with and without them is the same list |
| `Pagination.Paged` | tools/applicable_qualification.py:1056-1098 | Returns the concatenated pages, for every server |
| `Pagination.PaginationBounds` | tools/applicable_qualification.py:1056-1098 | A fixed collection is returned whole and in order up to 999,999 items and raises beyond; the PR-files endpoint stops at 3,000 |
| `Runs.TitleBindsOnePr` | tools/applicable_qualification.py:1220-1230 | No run title is accepted for two PR numbers of one gate, nor for two merge commits |
| `Runs.NewestMeans` | tools/applicable_qualification.py:1279-1309 | The chosen run matches, none that matches is newer, and there is one iff any matches |
| `Runs.NewestOrderIndependent` | tools/applicable_qualification.py:1302-1309 | With distinct run ids the choice does not depend on list order |
| `Sharding.GroupHeadShas` | tools/applicable_qualification.py:2837-2853 | Meets the grouping specification; raises iff some head is malformed |
| `Sharding.ShardsPartition` | tools/applicable_qualification.py:2837-2853 | At most 16 nonempty ascending groups, by first digit, that partition the distinct heads |
| `Sharding.RegroupIsStable` | tools/applicable_qualification.py:2872-2879 | Regrouping an emitted group gives that group, so it passes the guard of the writer |
| `Sharding.EachHeadOnce` | tools/applicable_qualification.py:2892-2895 | Any n consecutive hours over a stable shard of n heads select each head exactly once |
| `TrustedSources.TrustedGateScripts` | tools/applicable_qualification.py:1436-1510 | The worklist over a growing list terminates and returns the least set that contains the regular initial files and is closed under safe regular references, with at most 1024 members; it raises only for an unsafe initial path, an unreadable source or a graph that reaches the bound |
| `TrustedSources.Enqueue` | tools/applicable_qualification.py:1499-1509 | Only extends the queue, keeps it sound and free of repetitions, and puts every safe regular reference of the file on it |
| `RustStripper.StripRustComments` | tools/check_namespaces.py:145-176 | Meets the stripping specification |
| `RustScanner.StrippedIdempotent` | tools/check_namespaces.py:145-176 | Stripping twice changes nothing |
| `RustScanner.StrippedBySpan` | tools/check_namespaces.py:145-176 | Comments become blanks of the same length, every other token is untouched |
| `RustScanner.SpansTile` | tools/check_namespaces.py:148-175 | The tokens of the scan tile the whole text |
| `RustScanner.StrippedKeepsNewlines` | tools/check_namespaces.py:107-110 | Every newline stays where it was and none is introduced |
| `RustScanner.RescanStripped` | tools/check_namespaces.py:145-176 | Rescanning meets no comment and the very same quoted tokens, also after unterminated comments and raw strings |
| `RustStripper.BlankNonNewlines` | tools/check_namespaces.py:107-110 | Blanks exactly the characters of the range that are not newlines |
| `RustStripper.RawStringEnd` | tools/check_namespaces.py:113-125 | End of a raw string by its hashes, or of the text |
| `RustStripper.SkipQuotedToken` | tools/check_namespaces.py:128-142 | End of the quoted token that starts at the cursor, if one does |
| `RustStripper.CommentEnd` | tools/check_namespaces.py:153-174 | End of the line or nested block comment at the cursor |
| `RustStripper.RustItemEnd` | tools/check_namespaces.py:179-214 | Meets the item-end specification, always within bounds |
| `RustScanner.ItemLengthAtCut` | tools/check_namespaces.py:188-212 | An item ends at its first top-level semicolon or with the block of its first top-level brace |
| `RustScanner.ItemLengthUncut` | tools/check_namespaces.py:214-214 | Without either, at the end of the text |
| `RustScanner.BraceLengthAtClose` | tools/check_namespaces.py:199-212 | A block ends just past the first balancing brace, quoted tokens ignored |
| `RustScanner.BraceLengthUnclosed` | tools/check_namespaces.py:199-212 | A block that never balances runs to the end of the text |
| `RustStripper.StripCfgTestItems` | tools/check_namespaces.py:217-225 | Keeps the length and blanks exactly the test items |
| `RustStripper.RuntimeRustText` | tools/check_namespaces.py:228-229 | The composed stripping keeps length, newlines and every character outside comments and test items |
| `JsonSchema.Validate` | scripts/validate_assets.py:43-156 | The recursive validator terminates on every instance when the same-instance graph is ranked, and meets its specification: no error, the validation error, or another error |
| `JsonSchema.PointerRoundTrip` | scripts/validate_assets.py:49-59 | For every nonempty key path, escaping, joining and the code's split-and-replace walk reach exactly the subschema at those keys (section 4 of RFC 6901) |
| `JsonSchema.ResolveReference` | scripts/validate_assets.py:49-59 | Meets the reference-walk specification |
| `JsonSchema.AsksDescend` | scripts/validate_assets.py:43-156 | Every nested call is on a smaller instance, or on the same one with a schema of smaller rank |
| `JsonSchemaMeaning.CheckMeaning` | scripts/validate_assets.py:43-156 | On well-formed schemas it never raises another error and accepts exactly the instances that satisfy a declarative relation for the supported keywords |
| `JsonSchemaOrder.CheckOrderIndependent` | scripts/validate_assets.py:43-156 | The verdict is the same on instances, schemas and roots that differ only in key order |
| `JsonSchemaOrder.OrderIndependent` | scripts/validate_assets.py:43-156 | The declarative relation does not see key order, whichever ranking witnesses termination |
| `JsonSchemaTermination.NodesClosed` | scripts/validate_assets.py:43-156 | The schemas that a document can apply are finitely many and constructed from it: they include the document and every schema that one of them applies, references included |
| `JsonSchemaTermination.NodesLeast` | scripts/validate_assets.py:43-156 | Every closed set that contains the document contains them |
| `JsonSchemaTermination.RankedExactly` | scripts/validate_assets.py:43-156 | A document has a ranking of its schemas, which is what the recursion needs, iff none of them comes back to itself on one instance, even when references cycle through properties, items or contains |
| `JsonSchemaTermination.ValidateDocument` | scripts/validate_assets.py:43-46 | Validation of any instance against any document without such a cycle ends; the verdict is its specification, and the declarative relation when all schemas of the document are well formed |
| `JsonEquality.ConstantFaithful` | scripts/validate_assets.py:120-121 | The host equality used for const is JSON equality for all instances iff the constant holds no boolean, 0 or 1 anywhere |
| `JsonEquality.EnumerationFaithful` | scripts/validate_assets.py:122-123 | Membership in an enum is decided by JSON equality for all instances iff every boolean and number reading of each member is a member |
| `JsonEquality.BothReadings` | scripts/validate_assets.py:122-123 | That condition is weaker than unambiguous members: [true, 1] meets it |
| `JsonSchemaStandard.TypeFaithful` | scripts/validate_assets.py:25-66 | The type keyword is read as the standard asks, for all instances, iff integer is named only together with number |
| `JsonSchemaStandard.PrintedFaithful` | scripts/validate_assets.py:86-89 | Telling items apart by their printed form is JSON inequality, against every other item, iff the item holds no number with two spellings |
| `JsonSchemaStandard.UniqueDiverges` | scripts/validate_assets.py:86-89 | So [1, 1.0] passes uniqueItems although the standard rejects it |
| `JsonSchemaStandard.AdditionalFaithful` | scripts/validate_assets.py:74-80 | The members of objects are read as the standard asks exactly when additionalProperties is absent, boolean, or a schema that every value satisfies |
| `JsonSchemaStandard.AdditionalIgnored` | scripts/validate_assets.py:74-80 | Under a schema whose only constraint is a schema for undeclared members the validator accepts every instance, and the standard accepts exactly those whose members satisfy that schema |
| `JsonSchemaStandard.AdditionalDiverges` | scripts/validate_assets.py:74-80 | So {"a": 1} passes {"additionalProperties": {"type": "string"}}, a well-formed schema, although the standard rejects it |
| `JsonSchemaStandard.RangeFaithful` | scripts/validate_assets.py:43-156 | Ignoring minimum, maximum, their exclusive forms and multipleOf is right for every number exactly when none of them gives a bound |
| `JsonSchemaStandard.SizeFaithful` | scripts/validate_assets.py:68-80 | Ignoring minProperties and maxProperties is right for objects of every size exactly when the first is not positive and the second absent |
| `JsonSchemaStandard.ReadingsAgree` | scripts/validate_assets.py:43-156 | On documents whose schemas use no constraining keyword that the validator ignores, have unambiguous constants and complete enumerations and leave undeclared members free or forbidden, and on instances whose floats have a fraction, the declarative relation is the one of JSON Schema 2020-12 |
| `JsonSchemaStandard.CheckIsStandard` | scripts/validate_assets.py:43-156 | There the validator decides that standard relation |
| `JsonSchemaDocument.StandardNodesClosed` | scripts/validate_assets.py:43-156 | The schemas that the standard can apply, those of additionalProperties included, are finitely many and constructed from the document |
| `JsonSchemaDocument.DocumentIsStandard` | scripts/validate_assets.py:43-46 | For every document without a cycle on one instance whose schemas are well formed and faithful in that sense, validation ends and accepts exactly what the standard accepts, among instances whose floats have a fraction |
| `JsonSchemaDocument.RankIrrelevant` | scripts/validate_assets.py:43-156 | The meaning of a schema does not depend on the ranking that witnesses termination |
| `JsonEquality.ConfusedEqual` | scripts/validate_assets.py:120-123 | For an ambiguous constant, exchanging booleans and numbers gives the instance on which they differ |
| `ContractHistory.StableForever` | tools/check_contract_stability.py:282-333 | In any history whose trees each pass against their predecessor, a contract once stable stays registered and stable with the same kind, path and version, and every later artifact is compatible with every earlier stable one |
| `ContractHistory.CompatibleTransitive` | tools/check_contract_stability.py:229-239 | Compatibility is transitive for every kind |
| `ContractHistory.DbusTransitive` | tools/check_contract_stability.py:200-226 | D-Bus interface compatibility is transitive |
| `ContractHistory.HostEqualTransitive` | tools/check_contract_stability.py:232-236 | So is the equality of parsed JSON documents |
| `ContractHistory.OneRelease` | tools/check_contract_stability.py:282-333 | One accepted step keeps every stable contract alive |
| `ContractHistory.HistoricalFailures` | tools/check_contract_stability.py:271-333 | Reports no failure iff everything stable is preserved |
| `ContractHistory.EntryFailures` | tools/check_contract_stability.py:282-332 | Reports no failure iff the contract is kept, and removal and downgrade exactly when they happened |
| `ContractHistory.RegistryProblems` | tools/check_contract_stability.py:366-408 | Reports no problem iff every entry is sound and ids and paths are unique |
| `ContractHistory.EntryProblems` | tools/check_contract_stability.py:369-408 | The same for one entry, given what was registered before it |
| `ContractHistory.ValidateTree` | tools/check_contract_stability.py:336-408 | Accepts iff the registry is sound and preserves its predecessor |
| `ContractHistory.AnnotationsMeaning` | tools/check_contract_stability.py:161-169 | Reading succeeds exactly on complete, distinctly named annotations and records each of them |
| `ContractHistory.MembersMeaning` | tools/check_contract_stability.py:172-197 | Reading succeeds exactly on distinctly named members with readable annotations and records each with its shape |
| `ContractHistory.ReadAnnotations` | tools/check_contract_stability.py:161-169 | Meets the annotation specification |
| `ContractHistory.ReadMembers` | tools/check_contract_stability.py:172-197 | Meets the member specification |
| `ContractHistory.SafePathIdempotent` | tools/check_contract_stability.py:19-27 | Normalising a path twice changes nothing |
| `HookTheorem.CheckerFailsClosed` | tools/check_development_workflow.py:278-339 | For an accepted program that makes its list afresh and keeps to the list discipline, in every world without frame inspection, where any foreign code may raise, end the process, and do anything to what it is handed: an execution that returns ran the hook, and after a nonzero return code it can return nothing but 1 |
| `HookTheorem.CheckerSurvives` | tools/check_development_workflow.py:278-339 | And nothing ends the process after the failing hook, if every call after it is of a listed callee, the program binds none of the names these start from, and the listed callees, the canonical ones and implicit code are trusted not to end it |
| `HookTheorem.CheckerUnpried` | tools/check_development_workflow.py:278-339 | Both also hold in worlds with frame inspection, if the list is made first and every call of main is of a listed or canonical callee that is trusted |
| `HookTheorem.HookPropagates` | tools/check_development_workflow.py:278-339 | The same from any state in which only the variable reaches the list |
| `HookTheorem.EpilogueReturnsOne` | tools/check_development_workflow.py:114-121 | With a nonempty list the epilogue can only return 1, raise or end the process, the last only if its print is not trusted |
| `HookTheorem.HookRecords` | tools/check_development_workflow.py:105-112 | After a failing hook that completes the list is not empty, and with trusted canonical calls it does not end the process |
| `HookSoundness.ExecuteSafe` | tools/check_development_workflow.py:233-275 | No execution of an accepted, disciplined statement shrinks, rebinds or leaks the list, or returns; where its calls are listed and trusted it does not end the process |
| `HookSoundness.EvaluateSafe` | tools/check_development_workflow.py:212-275 | The same for expressions, whose values reach no more of the list than the text says |
| `HookSoundness.NoReturn` | tools/check_development_workflow.py:176-209 | A statement without an exit never returns |
| `HookDiscipline.PlainExactly` | tools/check_development_workflow.py:233-339 | The list discipline is exact for a single expression after the hook: a program with any accepted expression there fails closed in every world without frame inspection iff the expression hands the list to no foreign code and gives it no second name; otherwise some world returns 0 |
| `HookDiscipline.Leaks` | tools/check_development_workflow.py:233-275 | Every accepted expression without that discipline lets the list out in one fixed world |
| `HookDiscipline.CompoundReceiverLosesFailure` | tools/check_development_workflow.py:258-266 | So a whole accepted program calls a method on a compound receiver after the hook failed, empties the list and returns 0 |
| `HookDiscipline.OperandLosesFailure` | tools/check_development_workflow.py:233-275 | And so do programs that use the list as an index or beside another operand of a comparison |
| `HookDiscipline.PryingCallLosesFailure` | tools/check_development_workflow.py:233-275 | With frame inspection every call of anything but the canonical callees, though it is handed nothing, can lose the failure |
| `HookDiscipline.ExecLosesFailure` | tools/check_development_workflow.py:233-275 | Such as exec with a text that clears the list |
| `HookModule.EntryExactly` | tools/check_development_workflow.py:287-312 | For every module with one main and the canonical entry last: in every run that gets to the entry its names mean what they should iff no item may rebind them in between |
| `HookModule.ModuleFailsClosed` | tools/check_development_workflow.py:278-339 | Then a process that gets to the entry and whose hook fails has status 1 as soon as main returns or raises, for a disciplined main in a world without frame inspection |
| `HookModule.ShadowedMainAccepted` | tools/check_development_workflow.py:287-312 | The analysis accepts every module that rebinds main after an accepted definition, and the process may exit with 0 without running the hook |
| `HookAnalyser.HookConnected` | tools/check_development_workflow.py:278-339 | Accepts iff the canonical entry, epilogue and hook are in place with no exit and no clobbering around them |
| `HookAnalyser.ContainsExit` | tools/check_development_workflow.py:176-209 | Finds an exit iff one occurs outside nested scopes |
| `HookAnalyser.ExitVisitor.VisitStmt` | tools/check_development_workflow.py:179-205 | The visitor sets its flag iff the statement has such an exit |
| `HookBlindSpots.UnlistedCallEndsProcess` | tools/check_development_workflow.py:162-173 | For every list of trusted callees and every call of anything else that leaves the list alone, a whole accepted program makes that call and a world that keeps the trust ends it after the hook failed |
| `HookBlindSpots.ListedExactly` | tools/check_development_workflow.py:162-173 | For a program with one call after the hook, listing the callee is the exact condition for surviving in every world that keeps the trust and does not inspect frames |
| `HookBlindSpots.OsExitLosesFailure` | tools/check_development_workflow.py:162-173 | The instance of the unlisted call for os._exit(0), which the analysis does not recognise as an exit |
| `HookBlindSpots.RaisedExitLosesFailure` | tools/check_development_workflow.py:195-205 | The instance for a local function whose body raises SystemExit(0): the analysis does not look into the body, and neither does the semantics, which lets any call end the process |
| `HookBlindSpots.LocalFunctionEndsProcess` | tools/check_development_workflow.py:195-205 | The instance for a local function whose body calls sys.exit(0), in the same sense |

## Left out

- HookTheorem.CheckerFailsClosed: assumes that nothing inspects frames (`locals`, `exec`, tracebacks, the garbage collector and the like), in the code of `main` or in code it calls; `HookTheorem.CheckerUnpried` does without it for listed callees. For statements other than a single expression the list discipline is shown sufficient, not necessary.
- HookTheorem.CheckerSurvives: that code behind attributes, operators, truth tests, loops and imports does not end the process is assumed, because nothing in the text of `main` bounds it; frame inspection is excluded as above.
- HookTheorem.HookPropagates: the same two assumptions.
- HookModule.ModuleFailsClosed: says nothing about a module that ends the process before the entry, and takes frame and module inspection as excluded.
- HookBlindSpots.OsExitLosesFailure: uses nothing about `os._exit` but that it is not a listed callee.
- HookBlindSpots.RaisedExitLosesFailure: the body of the local function is not executed; a call of any unlisted callee may end the process.
- HookBlindSpots.LocalFunctionEndsProcess: the same.
- JsonSchemaStandard.ReadingsAgree: keywords that the validator ignores and that are neither numeric bounds nor object sizes are excluded and given no meaning (`propertyNames`, `patternProperties`, `dependentRequired`, `dependentSchemas`, `prefixItems`, `unevaluatedItems`, `unevaluatedProperties`, `$dynamicRef`); documents are read as JSON Schema 2020-12 whatever `$schema` says.
- EvaluationGuards.BatchGuardsNeverFire: the authority functions are parameters and could return any text, so that they do not return the texts of the two guards is a hypothesis.
- ContractHistory.EntryFailures: field values that are TOML dates or not-a-number are not modelled.
- EvaluationBatch.NeverTruncated: assumes that the diff does not change during the evaluation and that the declared count is the number of its entries; nothing can be concluded about a count GitHub misreports.
- ContractHistory.ValidateTree: leaves out the checks of registry header fields, of artifact metadata and of the policy document, which concern one tree only.
- RustStripper.StripCfgTestItems: takes the matches of the attribute pattern as a parameter; the regular expression itself is not modelled.
- RustStripper.RuntimeRustText: takes the same matches as a parameter.
- TrustedSources.TrustedGateScripts: takes the references found in each file as a parameter; the two patterns and the import walk that extract them are not modelled.
- Evaluation.EvaluatePr: which authority edits a change makes, whether they are approved, and the v0.9 full-or-regression classification are parameters that may depend on the clock (approval) and may raise.
- Evaluation.VerifyRequiredJobs: error texts do not list the missing names.
- JsonSchema.Validate: regular-expression search is a parameter, and the location text of an error is not modelled.
- Loading and validating the gate matrix and its workflows: what it establishes about gate identities is the hypothesis `Routing.Loaded`.
- A run without an id: the source raises a lookup error, the model reads the id as 0.
- The digest of an authority bundle, the approval ledger and its native checks.
- Resolving event payloads to heads, the polling verifier, status descriptions and the command line: they would only add easy members.
- Git baseline discovery and the XML and JSON parsers of the contract gate: parsers are parameters, the baseline is the preceding tree.
- A status post that lands only after a later post was made: an attempt lands when it is made or never.
- HTTP, tokens, rate limits and deadlines: a request answers from the snapshot of its time or raises.
- Concurrency between writer shards: runs of one shard are serialized, as the workflow's concurrency group does, and other shards touch other heads.
- Python outside the fragment of `PythonFragment`: match, async forms, generators, comprehensions, star imports, starred targets and arguments, decorators, parameter defaults, annotations, base classes, exception types of handlers, the cause of a raise, finalizers and signal handlers.
