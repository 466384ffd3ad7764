# A verified model of the Mangle compiler, evaluator and store

Mangle compiles Datalog rules with negation, built-in predicates and functions into physical
plans, orders the rules into strata, evaluates each stratum semi-naively over a three-tier
store, and can also emit the plans as WebAssembly. This project models that chain in Dafny and
proves that what comes out at the end is what the rules say. `dafny verify dfyconfig.toml`
checks all of it.

The parts, in the order in which a program passes through them:

- **Binding check** (`Bindings`): the scan of the premises and the fixpoint over pending
  equalities; which rules are accepted, and what that means for the planner.
- **Planning** (`Planner`, `Delay`, `Lowering`, `PlanCorrect`, `PlanTheorem`, `AtomSteps`,
  `PlanRule`, `RuleTheorem`, `PlanLimits`): premises are reordered and become nested scans, index
  lookups, delta scans, filters, lets, hash joins and an insert. `Interp` gives the meaning of
  rules (`Derives`: some assignment satisfies all premises) and, independently of it, the meaning
  of plans (`Run`). The main theorem is that they agree. `Surface` says what each built-in form,
  constant and literal comes to when a rule is compiled and run, and `Negation` when a negated
  premise is the complement of the positive one.
- **Interpretation** (`Scope`, `ScopeTheorem`): the interpreter keeps one mutable environment
  whose bindings outlive their loops; it still computes the scoped meaning, and when a plan
  reads only bound variables is characterised exactly.
- **Stratification** (`Graph`, `Stratify`, `SortStrata`): Kosaraju's components, the negation
  check, the depth-first sort, and the in-place cycle rotation.
- **Evaluation** (`SemiNaive`, `Evaluate`, `Program`, `Driver`; `VarRules`, `DeltaLimits` and
  `TransitiveClosure` for the limits of delta plans): the full pass, the merge, the delta
  rounds, the strata in order. Every fact of the result is given or derived; where the delta
  plans are complete the result is the perfect model of the program, closed under every rule
  with negation read in the result itself, and unique.
- **Code generation** (`Wasm`, `Emit`, `CodeSteps`, `CodeLoops`, `CodeJoins`, `CodeCorrect`,
  `CodeTheorem`): plans become structured WebAssembly over numbered locals and a host; running
  the code inserts the facts of the plan, although scratch and tuple locals are shared by all
  loops. `Validate`, `EmitValid` and `Generate` type the code: the generated function validates,
  and validated code never meets a missing local, a short stack or a value of the wrong kind.
  `Worlds`, `Snapshots` and `Schedule` run the whole function with its merges and loops.
- **Disk store** (`TableNames`, `Tables`, `DiskStore`, `StoreRefinement`, `StoreRuns`): rows and
  index entries in named tables refine three disjoint sets of tuples per relation, over every
  run of operations.
- **Provenance** (`Provenance`): deletion after a retraction is a least fixpoint.
- **Pushdown, time, types** (`Pushdown`, `PushdownLimits`, `Calendar`, `TimeText`, `Types`,
  `TypeExtent`, `TypeComplete`): row selection at the source, instants as text, which values a
  type has, and when type conformance is sound and complete.

Properties that turned out false of the code as it is, each shown by a concrete input and
bounded by the exact condition, or where said so by a sufficient one:

- A hash join takes any atom as its second premise, built-ins included; such a plan inserts
  nothing (`PlanLimits.HashJoinLosesFacts`). Hash joins are exact if and only if every consumed
  pair is of relations, or the rule derives nothing anyway (`PlanLimits.HashJoinExactIff`).
- The binding check counts a variable that occurs only inside a function argument of an atom as
  bound, and the plan then fails (`PlanLimits.NestedVariableFails`). An accepted rule reads only
  bound variables if and only if the variables inside compound arguments are bound by then
  (`ScopeTheorem.RuleScopedIff`).
- A delta plan names a predicate, not an occurrence of it. With two premises of one predicate
  both may scan the delta, and the rounds stop too early (`DeltaLimits.RoundsStopEarly`, on a
  whole run). An assignment is found by some delta plan if and only if some predicate of the
  stratum takes delta facts wherever its plan scans (`SemiNaive.CoveredIff`). For rules over
  variables and constants no assignment is ever missed if and only if `DeltaComplete` holds: some premise is
  nowhere scanned for its delta, or each recursive predicate occurs once
  (`VarRules.DeltaExactIff`, and `VarRules.FactExactIff` for facts). The condition is about single
  rounds: transitive closure by doubling fails it, and still ends in the least fixpoint exactly
  when the given pairs are extended (`TransitiveClosure.ClosureExactIff`).
- Generated code merges only in recursive strata, so a stratum does not see the facts of
  non-recursive strata since the last merge. The run ends with the driver's facts when no stratum
  reads such a relation (`Snapshots.InsulatedComputes`), a sufficient condition; for programs
  with one rule over variables for each relation and no recursion it does so for all given facts
  if and only if no rule reads a derived relation (`Snapshots.FlatExactIff`).
- A positive field test reads the first field of a name and the negated one any
  (`Negation.SecondValueUndecided`); they are complementary if and only if the fields of that name
  agree (`Negation.FieldNegationIff`).
- Index tables are dropped by a name prefix that also matches relations whose name continues
  the dropped one with a colon (`Tables.ColonNameLosesIndex`). Dropping keeps index and rows in
  agreement if and only if no such relation has rows with columns (`Tables.DropKeepsIndex`), and
  for all tables over given names if and only if no name continues another
  (`Tables.NamesSafeIff`).
- Facts that support each other in a cycle survive the deletion of their only ground
  (`Provenance.CycleSurvives`). Exactly the facts without a derivation tree are deleted if and
  only if deletion reaches every set of facts that only support each other
  (`Provenance.DeletionExactIff`), in particular without cycles (`Provenance.DeletedIffNoTree`).
- Predicates extracted at several reads of one relation are put together and all applied when
  the relation is loaded, so two planned rules lose a fact (`PushdownLimits.TwoSitesLoseFacts`).
  A selection is left alone if and only if every row that it selects passes all predicates
  (`PushdownLimits.SiteExactIff`, `PushdownLimits.SelectionsExactIff`); for arbitrary plans,
  applying all of them at every read is sufficient (`Pushdown.LoadedRuns`). The comments in the
  source claim safety without that condition.
- Every type conforms to `/any`, but compound values do not have it; `/bot` conforms to every
  type, but the name `/bot` has it (`Types.AnyAndBotUnsound`); struct types conform to types with
  fewer fields and to types that require an optional field (`Types.ExtraFieldUnsound`,
  `Types.OptionalFieldUnsound`). Each has its exact condition (`Types.AnySoundIff`,
  `Types.NamesSoundIff`), and conformance to a type without unions is sound if and only if `Keeps`
  holds (`Types.ConformsSoundIff`). With unions on the right `Keeps` is sufficient only
  (`Types.AlternativesTogether`).
- Conformance misses some containments: a type in its option, `/unit` in `/name`, a type without
  values in others (`TypeComplete.OptionMissed`, `TypeComplete.UnitMissed`,
  `TypeComplete.EmptyMissed`). Over other names, without structs and without unions on the right,
  it is containment if and only if options stand at the same places
  (`TypeComplete.ConformsCompletely`).

## Model

| member | source | states |
|---|---|---|
| Delay.PlacePremise | crates/mangle-analysis/src/planner.rs:1326-1352 | the worklist loop that places a premise and then all waiting ones that became ready computes the settled state of the specification |
| Delay.DelayUnboundPremises | crates/mangle-analysis/src/planner.rs:1300-1318 | the reordering loop computes the specified order |
| Delay.DelayedPermutes | crates/mangle-analysis/src/planner.rs:1300-1352 | the order is a permutation, keeps the order of the premises that cannot be delayed, places each premise only when ready, and leaves waiting only what is not ready under the final bindings |
| Delay.FinalBoundLeast | crates/mangle-analysis/src/planner.rs:1214-1286 | the final bindings are the least set of variables closed under placing ready premises |
| Delay.OrderIrrelevant | crates/mangle-analysis/src/planner.rs:1300-1318 | final bindings and the premises left waiting do not depend on where the premises started |
| Bindings.PassEqs | crates/mangle-analysis/src/bounds_check.rs:711-719 | one pass over the variable-variable equalities binds only variables that are forced, and a pass that binds nothing has reached all of them |
| Bindings.PassBinds | crates/mangle-analysis/src/bounds_check.rs:720-725 | the same for pending expressions |
| Bindings.Resolve | crates/mangle-analysis/src/bounds_check.rs:709-727 | the progress loop computes the least set of variables closed under the pending equalities |
| Bindings.CheckRuleBindings | crates/mangle-analysis/src/bounds_check.rs:526-755 | the check accepts a transform-free rule exactly when built-in atoms find their inputs from left to right and every variable is in the least set closed under atoms and equalities |
| Bindings.AcceptsIff | crates/mangle-analysis/src/bounds_check.rs:526-755 | the scan with its pending lists accepts exactly the rules that are well bound by that definition over premises |
| Bindings.AcceptedPlacesAll | crates/mangle-analysis/src/bounds_check.rs:922-952 | for an accepted rule the planner leaves no premise waiting, binds every variable, and places every filter after its variables |
| Bindings.AcceptedIsPlaced | crates/mangle-analysis/src/bounds_check.rs:629-631 | for an accepted rule, everything is bound where it is read if and only if the variables inside compound atom arguments are |
| Lowering.LowerTermsCorrect | crates/mangle-analysis/src/planner.rs:976-1123 | lowering nested terms to lets gives operands with the values of the terms, fails when they fail, and touches no program variable |
| Lowering.ConstraintsRun | crates/mangle-analysis/src/planner.rs:901-930 | the filters around a scan let a row pass exactly when each argument has the value of its column |
| AtomSteps.AtomStep | crates/mangle-analysis/src/planner.rs:556-680 | a scan, delta scan or index lookup followed by a correct plan for the rest is correct for the atom and the rest |
| Planner.FindLookup | crates/mangle-analysis/src/planner.rs:588-633 | an index key is the first argument that is a constant or a bound variable, and there is none exactly when no argument is |
| AtomSteps.JoinStep | crates/mangle-analysis/src/planner.rs:305-357 | a hash join followed by a correct plan is correct for the two atoms and the rest |
| PlanRule.JoinSequenceExact | crates/mangle-analysis/src/planner.rs:381-878 | the plan of any well-placed premise sequence inserts exactly what the remaining premises make derivable, from every environment that fits |
| RuleTheorem.CompileRule | crates/mangle-analysis/src/planner.rs:81-187 | reordering and planning a rule gives the specified plan |
| RuleTheorem.PlanCorrectFor | crates/mangle-analysis/src/planner.rs:658-675 | full plans and delta plans of a safe rule insert exactly the derivable facts, the delta read where a delta scan stands |
| RuleTheorem.PlanExact | crates/mangle-analysis/src/planner.rs:381-878 | the plan of a safe rule inserts exactly the head instances of the assignments that satisfy all premises, and does not fail when no function does |
| RuleTheorem.SimpleRuleSafe | crates/mangle-analysis/src/planner.rs:1270-1276 | an accepted rule whose atoms have only variables and constants as arguments is safe |
| RuleTheorem.HashJoinAgrees | crates/mangle-analysis/src/planner.rs:567-575 | with and without hash joins a safe rule is planned or not alike, both plans insert the same facts, and neither fails when no function does |
| RuleTheorem.SafeRulePlanned | crates/mangle-analysis/src/planner.rs:381-878 | the planner accepts a safe rule exactly when its premises and head have the shapes it supports |
| PlanLimits.BuiltinJoinInsertsNothing | crates/mangle-analysis/src/planner.rs:315-326 | a plan whose hash join consumes a built-in inserts nothing at all |
| PlanLimits.HashJoinExactIff | crates/mangle-analysis/src/planner.rs:305-357 | with hash joins a plan is exact if and only if each consumed pair is of relations, or the rule derives nothing |
| PlanLimits.HashJoinLosesFacts | crates/mangle-analysis/src/planner.rs:315-326 | a concrete safe rule and database where the hash join loses the derived fact |
| PlanLimits.NestedVariableFails | crates/mangle-analysis/src/planner.rs:1270-1276 | a concrete accepted rule whose plan fails at run time |
| Scope.ExecRefines | crates/mangle-interpreter/src/lib.rs:693-917 | on every plan that reads only bound variables, the interpreter with its one mutable environment inserts the facts of the scoped meaning, and fails when it fails |
| ScopeTheorem.RuleScopedIff | crates/mangle-analysis/src/planner.rs:381-878 | the plan of an accepted rule reads only bound variables if and only if variables inside compound atom arguments are bound by then |
| ScopeTheorem.InterpreterCorrect | crates/mangle-interpreter/src/lib.rs:688-917 | the interpreter inserts exactly what a safe rule's full or delta plan makes derivable |
| ScopeTheorem.InterpreterExact | crates/mangle-interpreter/src/lib.rs:688-1024 | the interpreter inserts exactly what a safe rule derives |
| Negation.NegationExactIff | crates/mangle-interpreter/src/lib.rs:1250-1257 | except for fields, a negated premise is the complement of the positive one if and only if its test does not fail |
| Negation.FieldNegationIff | crates/mangle-interpreter/src/lib.rs:1258-1268 | the negated field test is the complement of the positive one for every value if and only if all fields of that name have one value |
| Negation.SecondValueUndecided | crates/mangle-interpreter/src/lib.rs:879-903 | with a field name twice, the second value passes neither test |
| Surface.OrderMeans | crates/mangle-analysis/src/planner.rs:414-421 | a compiled comparison, or its negation, keeps exactly the rows whose values the machine orders so |
| Surface.EqualityMeans | crates/mangle-analysis/src/planner.rs:690-790 | a compiled equality keeps the rows with equal values and an inequality the others |
| Surface.CheckMeans | crates/mangle-analysis/src/planner.rs:797-830 | a compiled string test keeps the rows for which it is true, and negated those for which it is false |
| Surface.RelationMeans | crates/mangle-analysis/src/planner.rs:790-878 | a compiled atom keeps the rows whose values, in its order, the relation has, and negated the others |
| Surface.FieldMeans | crates/mangle-interpreter/src/lib.rs:879-903 | a compiled field premise gives the value of the first field of the name; negated it keeps the rows without such a field and value |
| Surface.MemberMeans | crates/mangle-interpreter/src/lib.rs:904-915 | a compiled member premise gives the elements of a list and nothing for other values; negated it keeps the others |
| Surface.ConstantMeans | crates/mangle-interpreter/src/lib.rs:1287-1304 | the value that each kind of constant inserts |
| Surface.CallMeans | crates/mangle-analysis/src/planner.rs:976-1080 | a compiled call or literal inserts what its function returns for its arguments in their order |
| Stratify.AddEdgeMeans | crates/mangle-analysis/src/stratification.rs:277-286 | an edge stays negative once one premise made it so |
| Stratify.MakeDepGraph | crates/mangle-analysis/src/stratification.rs:193-230 | nodes, edges and negative edges are exactly the heads, dependencies and negated dependencies of the rules |
| Stratify.Visit | crates/mangle-analysis/src/stratification.rs:303-319 | the recursive visit keeps the invariant of the search: finished nodes are followed, in their component, by one that finished no earlier than anything they reach |
| Stratify.FinishingOrder | crates/mangle-analysis/src/stratification.rs:299-323 | the complete search lists every node in an order with that property |
| Stratify.Transpose | crates/mangle-analysis/src/stratification.rs:288-297 | the transposed graph has exactly the reversed edges |
| Stratify.CollectBack | crates/mangle-analysis/src/stratification.rs:327-342 | the backward visit collects unseen nodes that reach the start and closes them under predecessors |
| Stratify.CollectedIsComponent | crates/mangle-analysis/src/stratification.rs:343-351 | what it collects from the last finished node left is exactly its component |
| Stratify.Sccs | crates/mangle-analysis/src/stratification.rs:299-353 | the sets partition the nodes, and two predicates share a set exactly when each reaches the other |
| Stratify.FindNegation | crates/mangle-analysis/src/stratification.rs:128-149 | a negative edge inside a component is found exactly when some cycle runs through a negation |
| SortStrata.VisitStratum | crates/mangle-analysis/src/stratification.rs:364-398 | the visit over components keeps the invariant of the search |
| SortStrata.SortedIndices | crates/mangle-analysis/src/stratification.rs:360-408 | the order lists every component once, dependencies first |
| SortStrata.RotateCycles | crates/mangle-analysis/src/stratification.rs:232-258 | for every permutation the in-place rotation moves each element i to position permutation[i] |
| SortStrata.RotateStep | crates/mangle-analysis/src/stratification.rs:245-255 | one step of a rotation keeps the invariant of the cycle, and the step that returns to its start completes it |
| SortStrata.SortResult | crates/mangle-analysis/src/stratification.rs:355-427 | the strata array is permuted so that dependencies come in the same or an earlier stratum |
| SortStrata.StratifyGraph | crates/mangle-analysis/src/stratification.rs:124-156 | fails exactly when a cycle runs through a negation; otherwise every dependency is in the same or an earlier stratum and every negated one strictly earlier |
| SemiNaive.RunPass | crates/mangle-driver/src/lib.rs:336-339 | a pass adds exactly the new facts of its plans to the next tier, and counts no change exactly when there is none |
| SemiNaive.PassExact | crates/mangle-driver/src/lib.rs:326-345 | a pass inserts exactly what the rules of its plans derive |
| SemiNaive.DerivesGrows | crates/mangle-driver/src/lib.rs:326-360 | rules are monotone in the relations of their own stratum |
| SemiNaive.JobSound | crates/mangle-analysis/src/planner.rs:658-675 | what a delta plan derives, its rule derives |
| SemiNaive.CoveredIff | crates/mangle-analysis/src/planner.rs:658-675 | a satisfying assignment is completed by some delta plan if and only if some occurring predicate of the stratum takes delta facts wherever its plan scans |
| SemiNaive.DeltaCovers | crates/mangle-driver/src/lib.rs:268-292 | where the condition on delta plans holds, what a rule derives from both tiers it derives from the stable tier alone, or one of its delta plans derives it |
| VarRules.VarRuleAnalysed | crates/mangle-analysis/src/planner.rs:1300-1352 | every rule over variables and constants with its head variables in its premises is safe, and reordering leaves it alone |
| VarRules.DeltaExactIff | crates/mangle-analysis/src/planner.rs:591-675 | for rules over variables and constants, the delta plans miss no assignment on any split of facts into tiers if and only if the condition holds |
| VarRules.FactExactIff | crates/mangle-analysis/src/planner.rs:658-675 | when the head has all variables, the same for derived facts |
| Evaluate.FirstMerge | crates/mangle-driver/src/lib.rs:336-339 | after the initial pass and the merge the invariant of the rounds holds |
| Evaluate.RoundKeeps | crates/mangle-driver/src/lib.rs:341-350 | a round keeps the invariant, and one without change has reached the least fixpoint |
| Evaluate.Rounds | crates/mangle-driver/src/lib.rs:341-350 | the loop computes the rounds of the specification |
| Evaluate.RoundsLeast | crates/mangle-driver/src/lib.rs:341-350 | with complete delta plans the rounds end in the least fixpoint; as many rounds as some closed set has facts are enough |
| Evaluate.OnePassSuffices | crates/mangle-driver/src/lib.rs:328-332 | one pass computes the least fixpoint of a stratum that is not recursive |
| Evaluate.EvalStratum | crates/mangle-driver/src/lib.rs:326-360 | evaluating a stratum computes its specification: the result is contained in every closed extension, and with complete delta plans is the least one |
| Evaluate.StratumSound | crates/mangle-driver/src/lib.rs:326-360 | whatever the delta plans miss, every fact added is derived from the result and in every closed extension; evaluation fails only when a function does or some rule cannot be planned |
| Evaluate.StratumLeast | crates/mangle-driver/src/lib.rs:326-360 | with complete delta plans a finished evaluation is the least fixpoint, and an unfinished one had fewer rounds than any closed extension has facts |
| Program.PerfectUnique | crates/mangle-driver/src/lib.rs:326-360 | a program has at most one perfect model over given facts |
| Program.PerfectStep | crates/mangle-driver/src/lib.rs:326-360 | every perfect model holds what the next stratum adds to each prefix of the strata |
| Program.LeastSupported | crates/mangle-driver/src/lib.rs:326-360 | a fact that the least set adds is derived from the set by some rule |
| Program.PerfectIsModel | crates/mangle-driver/src/lib.rs:326-360 | a perfect model is closed under the rules of all strata and supported, negation read in the final model |
| Program.EvalProgram | crates/mangle-driver/src/lib.rs:326-360 | evaluating ordered strata in turn only adds derived facts; with complete delta plans it gives the perfect model; it fails only when a function or planning does, and ends within any number of rounds larger than the perfect model |
| Driver.StratifiedRules | crates/mangle-driver/src/lib.rs:126-150 | a stratification of the dependency graph puts every rule in one place, where it reads no later stratum and negates nothing of its own |
| Driver.RunProgram | crates/mangle-driver/src/lib.rs:184-363 | a program is rejected exactly when a cycle runs through a negation; a finished run holds the given facts and otherwise only derived ones; with complete delta plans it is the perfect model, closed under every rule; a run fails only when a function does or a rule cannot be planned, and is finished once the rounds allowed exceed the size of the perfect model |
| DeltaLimits.RoundsStopEarly | crates/mangle-analysis/src/planner.rs:665-669 | a program with two premises of its own relation: the whole evaluation stops although another fact follows |
| TransitiveClosure.ClosureExactIff | crates/mangle-driver/src/lib.rs:326-360 | transitive closure by doubling ends in the least fixpoint if and only if every given pair followed by an edge is in the result |
| TransitiveClosure.ClosureComplete | crates/mangle-driver/src/lib.rs:326-360 | in particular when no pair is given, although the condition on single rounds fails |
| Emit.ItersCounted | crates/mangle-codegen/src/lib.rs:797-897 | the first pass counts exactly the iterators that the second takes |
| Emit.CollectNumbers | crates/mangle-codegen/src/lib.rs:797-897 | the first pass gives every variable that a plan binds a local of its own and keeps those of earlier plans |
| CodeSteps.CondRuns | crates/mangle-codegen/src/lib.rs:1362-1420 | the code of a condition leaves its truth value on the stack and changes at most a buffer |
| CodeJoins.MatchesAreBucket | crates/mangle-codegen/src/lib.rs:1122-1138 | probing the host's table finds exactly the bucket of the key, in key-first layout |
| CodeJoins.BuildRuns | crates/mangle-codegen/src/lib.rs:1143-1176 | the build loop sends every row of the build relation to the table, keys first |
| CodeCorrect.RowsRun | crates/mangle-codegen/src/lib.rs:917-938 | a scan loop runs its body once per row in the environment of the row, and leaves outer iterators, variables and hash tables alone |
| CodeCorrect.JoinRuns | crates/mangle-codegen/src/lib.rs:1100-1239 | build, probe and match loops run the body for exactly the pairs of rows that join |
| CodeCorrect.OpRuns | crates/mangle-codegen/src/lib.rs:899-1090 | for every plan that reads only bound variables, the code ends with exactly the facts of the plan inserted, the stack and everything around it kept, although all loops share the scratch and tuple locals |
| CodeTheorem.PlanCodeExact | crates/mangle-codegen/src/lib.rs:641-692 | the code of a full or delta plan of a safe rule inserts exactly what the plan makes derivable, the delta read where a delta scan stands |
| CodeTheorem.RuleCodeExact | crates/mangle-codegen/src/lib.rs:641-692 | the code of a safe rule inserts exactly what the rule derives |
| CodeTheorem.GeneratedRuns | crates/mangle-codegen/src/lib.rs:718-750 | the locals that the first pass declares are enough for the code of all plans, which as one pass inserts the facts of all of them |
| Validate.NeverStuck | crates/mangle-codegen/src/lib.rs:718-784 | code that types under its locals, run on any host, keeps the types of locals and stack and never meets a missing local, a short stack or a value of the wrong kind |
| EmitValid.DeclarationsFit | crates/mangle-codegen/src/lib.rs:718-748 | the declared locals give every variable a reference and every iterator an integer |
| EmitValid.OpChecks | crates/mangle-codegen/src/lib.rs:797-1360 | the exact type of the emitted code of every plan, under the locals of the first pass and at any depth of labels |
| Generate.GeneratedValidIff | crates/mangle-codegen/src/lib.rs:718-784 | the generated function validates if and only if every test is sent the arguments that the host takes |
| Generate.PlanExactCalls | crates/mangle-analysis/src/planner.rs:381-878 | every test in a plan of the planner is sent that many arguments |
| Generate.GeneratedValid | crates/mangle-codegen/src/lib.rs:593-784 | whatever the rules, the function generated from the planner's plans validates |
| Generate.GeneratedNeverStuck | crates/mangle-codegen/src/lib.rs:593-784 | so no run of it is stuck, and it ends with an empty stack |
| Generate.OpTidy | crates/mangle-codegen/src/lib.rs:899-1360 | no loop assigns its own iterator inside its body: nested loops use different ones |
| Worlds.OneSnapshot | crates/mangle-codegen/src/lib.rs:752-784 | code without a merge runs as on one fixed database |
| Schedule.RoundLoopReaches | crates/mangle-codegen/src/lib.rs:757-777 | the merge and the loop of a recursive stratum end where the rounds of the driver end |
| Schedule.FixpointLeast | crates/mangle-codegen/src/lib.rs:653-692 | started with everything merged, the code of a recursive stratum with complete delta plans reaches the least set closed under its rules |
| Schedule.GeneratedComputes | crates/mangle-codegen/src/lib.rs:593-784 | the whole generated function ends with the facts of the strata run in order over merged and waiting facts |
| Schedule.GeneratedPerfect | crates/mangle-codegen/src/lib.rs:593-784 | it ends with the perfect model when no stratum reads what waits and the delta plans are complete |
| Snapshots.InsulatedComputes | crates/mangle-codegen/src/lib.rs:752-784 | when no stratum reads a relation derived since the last merge, the run ends where the driver's evaluation ends |
| Snapshots.OneStep | crates/mangle-codegen/src/lib.rs:752-784 | strata without recursion add exactly what follows in one step from the facts given |
| Snapshots.FlatExactIff | crates/mangle-codegen/src/lib.rs:752-784 | for non-recursive programs with one rule over variables for each relation, the run agrees with the driver on all facts if and only if no rule reads a derived relation |
| TableNames.IndexInjective | crates/mangle-db/src/disk_store.rs:152-154 | an index table name determines tier, relation and column, whatever the relation is called |
| TableNames.PrefixFinds | crates/mangle-db/src/disk_store.rs:499-519 | the drop prefix of a relation matches its own index tables and those of relations whose name continues it with a colon, and no others |
| Tables.DropKeepsIndex | crates/mangle-db/src/disk_store.rs:499-519 | dropping a tier keeps index and rows in agreement if and only if no relation that continues the name has a row with a column |
| Tables.ColonNameLosesIndex | crates/mangle-db/src/disk_store.rs:499-519 | with a row in a:b, dropping a loses an index entry |
| Tables.NamesSafeIff | crates/mangle-db/src/disk_store.rs:499-519 | dropping keeps index and rows in agreement for all tables over given names if and only if no name continues another with a colon |
| DiskStores.FindTuple | crates/mangle-db/src/disk_store.rs:266-302 | the lookup through column 0, or by scan without columns, finds a tuple exactly when the tier has it |
| DiskStores.DiskStore.TierContains | crates/mangle-db/src/disk_store.rs:266-302 | answers whether the tier has the tuple |
| DiskStores.DiskStore.Insert | crates/mangle-db/src/disk_store.rs:587-617 | a tuple is new exactly when no tier has it, and then goes to the next delta with all its index entries |
| DiskStores.DiskStore.Promote | crates/mangle-db/src/disk_store.rs:367-412 | the destination gets the union under fresh ids, the source becomes empty, nothing else changes; the index stays in agreement when no name continues this one |
| DiskStores.DiskStore.MergeDeltas | crates/mangle-db/src/disk_store.rs:619-625 | whatever the names, for each created relation the delta joins the stable tier and the next delta becomes the delta, and other relations are untouched; the index stays in agreement when no relation with rows continues a created name |
| DiskStores.DiskStore.RetractFromTier | crates/mangle-db/src/disk_store.rs:417-494 | removes exactly the tuple, with its index entries |
| DiskStores.DiskStore.Retract | crates/mangle-db/src/disk_store.rs:643-650 | reports whether some tier had the tuple, and leaves it in none |
| DiskStores.DiskStore.Clear | crates/mangle-db/src/disk_store.rs:652-656 | empties all tiers of the relation and no other; the index stays in agreement if and only if no relation that continues the name has a row with a column |
| DiskStores.DiskStore.CreateRelation | crates/mangle-db/src/disk_store.rs:627-641 | registers the relation and changes no tuple |
| DiskStores.DiskStore.Scan | crates/mangle-db/src/disk_store.rs:535-544 | lists the tuples of the stable tier and the delta, each once |
| DiskStores.DiskStore.ScanIndex | crates/mangle-db/src/disk_store.rs:564-574 | lists exactly the visible tuples with the key in the column, each once |
| StoreRefinement.StoreShows | crates/mangle-db/src/disk_store.rs:535-574 | a plan that reads through the scans sees exactly the store's facts, with sound indexes |
| StoreRefinement.MergeStore | crates/mangle-db/src/disk_store.rs:619-625 | merging the tables is merging the three sets of facts of the evaluator |
| StoreRefinement.InsertFact | crates/mangle-db/src/disk_store.rs:587-617 | inserting a tuple is inserting its fact in the evaluator's sets |
| StoreRuns.Run | crates/mangle-db/src/disk_store.rs:587-656 | every run of insertions, retractions, clears, creations and merges over names that do not continue one another keeps rows and index in agreement, and leaves the tuples that the operations give on plain sets |
| StoreRuns.Session | crates/mangle-db/src/disk_store.rs:535-656 | on a new store and names without colons, after any run the index scan lists exactly what the full scan lists with the key in the column |
| StoreRuns.LastDecides | crates/mangle-db/src/disk_store.rs:587-656 | after any run a tuple is present if and only if the last operation on it was its insertion, or there was none and it was present before |
| Provenance.ProvenanceIndex.Record | crates/mangle-db/src/provenance.rs:54-68 | adds the derivation and keeps every premise linked to what it derives |
| Provenance.ProvenanceIndex.DeletePhase | crates/mangle-db/src/provenance.rs:82-119 | terminates with the least set of facts all of whose derivations use the retracted fact or a member; the derivations that stay are exactly those without a deleted premise, and their links stay |
| Provenance.LeastUnique | crates/mangle-db/src/provenance.rs:82-119 | the result does not depend on the order of the worklist |
| Provenance.TreeKeeps | crates/mangle-db/src/provenance.rs:82-119 | a fact that has a derivation tree without the retracted fact is never deleted |
| Provenance.DeletionExactIff | crates/mangle-db/src/provenance.rs:82-119 | exactly the facts without a tree are deleted if and only if deletion reaches every set of facts that only support each other |
| Provenance.DeletedIffNoTree | crates/mangle-db/src/provenance.rs:82-119 | in particular without cycles |
| Provenance.CycleSurvives | crates/mangle-db/src/provenance.rs:82-119 | two facts that support each other survive without a tree |
| Pushdown.CondPredMeans | crates/mangle-db/src/predicate.rs:213-249 | an extracted predicate holds of a row exactly when the filter lets it pass, also with its operands swapped |
| Pushdown.CondPredIff | crates/mangle-db/src/predicate.rs:213-249 | a condition is extracted if and only if it compares a scan variable with a constant, on either side |
| Pushdown.ExtractIff | crates/mangle-db/src/predicate.rs:66-206 | the predicates of a relation are exactly those that its places yield: the filters under a scan and the constant key of a lookup |
| Pushdown.FailingRow | crates/mangle-db/src/predicate.rs:187-206 | a row that fails a collected predicate inserts nothing |
| Pushdown.LoadedRuns | crates/mangle-db/src/source.rs:113-126 | when every read of a relation applies its predicates itself, loading only the rows that pass changes no inserted fact |
| Pushdown.PushdownSafe | crates/mangle-db/src/predicate.rs:55-112 | in particular when each relation with extracted predicates is read at one place |
| PushdownLimits.SiteExactIff | crates/mangle-db/src/source.rs:113-126 | loading by predicates leaves a selection alone if and only if every row that it selects passes them |
| PushdownLimits.SelectionsExactIff | crates/mangle-db/src/predicate.rs:55-112 | in a program of selections from one relation, pushdown changes nothing if and only if each row that one rule selects passes the predicates extracted from every rule |
| PushdownLimits.TwoSitesLoseFacts | crates/mangle-db/src/predicate.rs:60-64 | two planned rules and one row: with pushdown a derived fact is lost |
| Calendar.DayNumberCounts | crates/mangle-common/src/lib.rs:207-218 | the reference numbering of days counts calendar days from the epoch |
| Calendar.CivilDateExact | crates/mangle-common/src/lib.rs:207-218 | for every day, before or after the epoch, the computed date is valid and is the one with that number |
| Calendar.CivilDateUnique | crates/mangle-common/src/lib.rs:207-218 | every valid date is computed from its number |
| Calendar.StepsInRange | crates/mangle-common/src/lib.rs:207-218 | day and year of the era, day and month of the March year stay in their ranges, and no unsigned subtraction goes below zero |
| TimeText.SplitExact | crates/mangle-common/src/lib.rs:194-205 | the parts of an instant are in range and recompose to it |
| TimeText.TextRoundTrip | crates/mangle-common/src/lib.rs:194-226 | the text of every 64-bit instant has the date-time form of RFC 3339, and reading it gives the instant back |
| TimeText.EveryTimePrinted | crates/mangle-common/src/lib.rs:194-226 | every valid date and time within 64 bits is the one computed from its own instant, and its text reads back |
| Types.NamesSound | crates/mangle-analysis/src/type_expr.rs:757-764 | the name hierarchy is sound for values, away from the names that the exact condition excludes |
| Types.NamesSoundIff | crates/mangle-analysis/src/type_expr.rs:744-764 | conformance of one name to another keeps all values if and only if that condition holds |
| Types.AnySoundIff | crates/mangle-analysis/src/type_expr.rs:748-750 | conformance to /any is sound if and only if the type has only scalar values |
| TypeExtent.NameExtent | crates/mangle-analysis/src/type_expr.rs:1007-1032 | the values of each name type: the scalars of its kind, and the names at or below it |
| TypeExtent.UnionExtent | crates/mangle-analysis/src/type_expr.rs:1193 | a union has the values of its alternatives |
| TypeExtent.OptionExtent | crates/mangle-analysis/src/type_expr.rs:1272-1283 | an option has /unit and the values of its argument |
| TypeExtent.StepExtent | crates/mangle-analysis/src/type_expr.rs:1173-1288 | a value has a compound type exactly when it has the outer shape and each of its parts has the type of its position |
| TypeExtent.PathExtent | crates/mangle-analysis/src/type_expr.rs:1173-1288 | a value has a type without alternatives exactly when at every path that both have the part has the shape of its type |
| TypeComplete.Covariance | crates/mangle-analysis/src/type_expr.rs:791-865 | lists, maps, pairs, tuples and options conform exactly part by part; /any is above and /bot below every type |
| TypeComplete.UnionConforms | crates/mangle-analysis/src/type_expr.rs:724-739 | a union conforms when all alternatives do, and a type to a union when it conforms to one |
| TypeComplete.StructConforms | crates/mangle-analysis/src/type_expr.rs:871-902 | a struct type conforms exactly when every field of the other conforms, or is optional and absent |
| TypeComplete.ConformsIff | crates/mangle-analysis/src/type_expr.rs:698-902 | over ordinary names, a type conforms soundly exactly when its values are among the other's and options stand at the same places |
| TypeComplete.ConformsCompletely | crates/mangle-analysis/src/type_expr.rs:698-865 | without structs, conformance is containment as far as options stand at the same places |
| TypeComplete.OptionMissed | crates/mangle-analysis/src/type_expr.rs:785-789 | a type is contained in its option and does not conform to it |
| TypeComplete.UnitMissed | crates/mangle-analysis/src/type_expr.rs:757-764 | /unit is contained in /name and does not conform to it |
| TypeComplete.EmptyMissed | crates/mangle-analysis/src/type_expr.rs:785-789 | a pair type without values is contained in a list type and does not conform to it |
| Types.ConformsSound | crates/mangle-analysis/src/type_expr.rs:698-902 | a value of a type has every type to which the type conforms where each position meets the exact condition |
| Types.ConformsSoundIff | crates/mangle-analysis/src/type_expr.rs:698-902 | for a right side without unions, conformance is sound for all values if and only if each position does |
| Types.AlternativesTogether | crates/mangle-analysis/src/type_expr.rs:698-742 | with unions on the right the condition is only sufficient |
| Types.AnyAndBotUnsound | crates/mangle-analysis/src/type_expr.rs:1007-1032 | concrete values for which conformance to /any and from /bot is unsound |
| Types.ExtraFieldUnsound | crates/mangle-analysis/src/type_expr.rs:871-902 | a struct type conforms to one without its field, whose values lack it |
| Types.OptionalFieldUnsound | crates/mangle-analysis/src/type_expr.rs:871-902 | an optional field conforms to a required one |

## Left out

- Transforms (`do` and `let` parts of rules), grouping and aggregation, and the plan operations `GroupBy` and `Seq`: rules here have no transform.
- Temporal atoms and the coalescing of intervals after a stratum.
- The parser, package renaming and interning: variables and predicates are values, and the parser's renaming of each `_` apart is assumed.
- Error texts: an error is one value without a message.
- Arithmetic inside values: the built-in functions, tests and comparisons of plans are parameters of the model, so integer width and floating point do not appear in it.
- Relations used with several widths: the in-memory store skips tuples of another width; the evaluator model inserts them, and the emitted code is proved for relations of one width.
- Evaluate.Rounds: takes a bound on the number of rounds, because functions can build new values for ever; `Evaluate.RoundsLeast` says how many rounds are enough.
- VarRules.DeltaExactIff: the exact condition is stated for rules over variables and constants; for other rules `DeltaComplete` is sufficient.
- Pushdown.LoadedRuns: is sufficient; the exact condition is stated for selections in `PushdownLimits`.
- The in-memory store's own index layout: its index may return more rows than asked for, which `IndexSound` admits.
- Host function numbering, constant tables, the byte encoding of WebAssembly, and the 32-bit hash by which emitted code names relations, which is taken to be injective.
- CodeCorrect.OpRuns: does not fix how each built-in function maps to host calls; a call evaluates the function.
- Snapshots.InsulatedComputes: is sufficient and not necessary; whether a stratum that reads waiting facts loses anything is a question of containment between programs. The exact condition is stated for the programs of `Snapshots.FlatExactIff`.
- Schedule.GeneratedComputes: is stated for strata all of whose rules can be planned; code generation leaves out a rule that cannot.
- The host of generated code: that a scan reads what was merged is taken from the interpreter's store.
- The rule of WebAssembly that code after a branch is typed freely: no such code is emitted, and `Validate` rejects it.
- Database transactions, encodings, reopening and ignored write errors of the disk store: tables are maps, and the rows of a transaction are written one by one.
- DiskStores.DiskStore.MergeDeltas: agreement of the index is stated one way only, because with names that continue one another it depends on the order in which relations are merged.
- RuleTheorem.HashJoinAgrees: does not say that the two plans fail alike when a function fails.
- SortStrata.SortResult: does not return the new predicate-to-stratum map, which the caller discards.
- Tagged unions, functions, relations and type variables in type conformance.
- Types.ConformsSound: identity of types is equality by content, so it holds for more types than identity of instructions.
- Caching and fingerprints of the database, file formats, foreign interfaces, the naive engine.
