# Verified model of ry's scheduling, caching and value abstractions

`ry` is a static checker for R. This project models five parts of it and proves what they promise.

1. The return-type fixpoint: an iterative Tarjan that orders strongly connected components of the reads seen so far
   (`Tarjan.dfy`, over `Graphs.dfy`), and a worklist scheduler with a separate "not computed" marker, per-component
   budgets, widening, a rule for functions that never return, and evaluation flags passed on between passes
   (`Fixpoint.dfy`, `EvalFlags.dfy`). The rules for passing flags on come from methods and forwarded formals
   (`EvalRules.dfy`, over `ArgumentMatching.dfy`). `Restart.dfy` proves that closing an edit under the recorded reads,
   seeding all other functions and restarting the affected ones gives the cold solution. `FixpointExample.dfy` is a small
   program that meets every hypothesis the scheduler's results name.
2. Incremental project checking: file operations, cached diagnostics and when they may be reused (`Project.dfy`), file
   order and definers (`FileOrder.dfy`), caller closures (`Closures.dfy`), merging per-file tables (`MergedTables.dfy`),
   what comparing the replaced literals notices of a name's definitions (`Rebounds.dfy`), and what the calls of all files
   say about a defaulted formal (`Defaults.dfy`, `MergedEvidence.dfy`). `ProjectExample.dfy`, `DefaultsExample.dfy` and
   `BoxExample.dfy` are runs that leave a file's diagnostics out of date.
3. Box module loading through a shared cache, by one checker and by any interleaving of several (`BoxModules.dfy`).
4. The definition table, as a refinement of a log of bindings (`Definitions.dfy`).
5. Small sound abstractions: length and names after a replacement write (`SubAssign.dfy`, against R's own result in
   `RVectors.dfy`), three-valued contract comparison (`Contracts.dfy`, over `RTypes.dfy`), declaration selection and
   formal matching (`Declarations.dfy`), the frame stack of the capture walk (`Captures.dfy`), and baselines
   (`Baseline.dfy`).

Inference itself is a parameter: `Fixpoint.Job.refine` and `Project.Env.emit` are arbitrary functions, restricted only by
frame conditions (`Fixpoint.JobOk`, `Project.EmitOk`) saying that a walk depends on nothing but what it looks at. For an
emission (`Project.SameView`) that is the functions the file defines, those it calls or was seen to read with all that
their bodies call, all methods, the names that every walk may look at (`Project.Env.screened`), the types its defaulted
formals start with by the calls of the whole project, the modules it was seen to look up, and what a check compares as a
whole. For collection, a definition is recorded as a captured literal and as a write, with the calls of its body
(`Project.CollectOk`).
`Seals.dfy` holds a proof device.

## Where the code does not keep a promise

Each of these is a lemma with a concrete input, beside a theorem that says when the code is right.

- An incremental check is to give what a check from scratch gives. It can reuse diagnostics that are out of date, but only
  in the following cases; `Project.Project.CheckIncremental` proves every other reused entry right.
  - A file edited so that it newly defines an existing name, with the same return and signature, does not re-emit the
    callers of that name when every literal of the name had been replaced already and the new one stands where a replaced
    one stood (`ProjectExample.EditedDefinerIsMissed`). Any other new definition of a plain name, and any in an added file,
    changes the replaced literals and re-emits everything (`Rebounds.UnnoticedDefiner`; exactly when one addition is
    noticed: `Rebounds.AdditionNoticed`).
  - An edit that sets such a name to another value, or no longer does, does not re-emit its callers either
    (`ProjectExample.EditedMarkIsMissed`), nor does one that defines a name without a capture record, as a function nested
    in another has none (`ProjectExample.NestedDefinerIsMissed`). There are no other hidden changes
    (`Project.OnlyHiddenChanges`).
  - A file that defines a name without using it is not re-emitted when another file's definition of the name changes
    (`ProjectExample.WithdrawnDefinerIsMissed`), nor is any file when a definition named like a `length` method changes
    that was not registered as a method, though a length guard looks at all of them
    (`ProjectExample.RewrittenLengthIsMissed`). The condition is `Project.UnaskedChange`.
  - When the project loses its last method, files that dispatch are not re-emitted
    (`ProjectExample.LostMethodIsMissed`); while some method is left they are (`Project.MethodsKept`).
  - A formal's default counts in its function's body once some call of the project omits the argument, or some caller
    forwards an omitted formal of its own. Editing such a call does not re-emit the file that holds the function
    (`DefaultsExample.EditedCallIsMissed`; the condition, `Project.DefaultsChange`, is that a formal's answer differs; when
    nothing forwards to it, exactly when the files that omit it come or go: `Defaults.OnlyOmissionCounts`).
  - Adding a file after a check does not re-emit a file whose modules were looked up at its path
    (`BoxExample.AddedModuleIsMissed`; exactly when the view of the sources changes: `Project.AdditionSeen`).
- A call counts as omitting a formal by counting its unnamed arguments. With other formals named, or a name abbreviated, it
  may supply the formal all the same (`Defaults.SuppliedCountsAsOmitted`; exactly when: `Defaults.OmissionIsReal`), and after
  `...` an omission may go unnoticed (`Defaults.OmissionAfterDots`).
- A baseline is written after the confidence threshold and subtracted before it, so an earlier diagnostic below the
  threshold can use up the count and bring a recorded one back (`Baseline.ShadowedComesBack`; exactly when:
  `Baseline.WrittenAboveThreshold`).
- `x$a <- NULL` on a value holding `a` twice makes a complete schema forget the remaining `a`, and a later write counts it
  again (`SubAssign.RepeatedNameCountedTwice`; exactly when: `SubAssign.ListNamedSound`, `SubAssign.WriteNamesSound`).
- A computed subscript keeps a complete schema complete (`SubAssign.ComputedNameCountedTwice`; exactly when:
  `SubAssign.WriteNamesSound`).
- A recorded empty name is taken to be present, though R never matches it (`SubAssign.EmptyNameWrittenTwice`), and so is
  the key of an element recorded by position (`SubAssign.PositionTakenForName`; exactly when: `SubAssign.WriteLengthSound`,
  `SubAssign.ListNamedSound`, `SubAssign.ListNamesSound`). A name spelled like a position is taken for that position
  (`SubAssign.NameTakenForPosition`; exactly when: `SubAssign.RecordedSound`).
- `x["a"] <- NULL` on a list keeps the list's length (`SubAssign.ListNamesNullKeepsLength`; exactly when:
  `SubAssign.ListNamesNull`).
- A literal bound under two spellings stops being live when its recorded spelling is rebound, though the other still
  binds it (`Definitions.StillBoundButNotLive`); the notes about a name that is itself spelled in quotes depend on the
  order of binding (`Definitions.QuotedNameDependsOnOrder`), and for all other names the notes are exact.

## Model

| member | source | states |
|---|---|---|
| Tarjan.ComponentsAfterDependencies | crates/ry-checker/src/fixpoint.rs:46-102 | For every in-range graph the iterative algorithm ends with a partition of the nodes into ascending components; two nodes share one exactly when each reaches the other; a component comes after every component it depends on. |
| Tarjan.Explore | crates/ry-checker/src/fixpoint.rs:57-100 | One root's visit keeps the whole loop invariant and every visit number given before, and visits the root. |
| Tarjan.StepTop | crates/ry-checker/src/fixpoint.rs:67-99 | Each step of the top frame keeps the invariant and lowers (unvisited nodes, work left), so the nested loops end. |
| Tarjan.FollowEdge | crates/ry-checker/src/fixpoint.rs:68-82 | Visiting or accounting for one edge keeps the invariant. |
| Tarjan.FinishNode | crates/ry-checker/src/fixpoint.rs:83-98 | A node without edges left closes its component or passes its low number to its parent; the invariant is kept. |
| Tarjan.PopComponent | crates/ry-checker/src/fixpoint.rs:88-95 | Popping down to the node yields exactly the stack segment above it and unmarks exactly those nodes. |
| Tarjan.SegmentReachesTop | crates/ry-checker/src/fixpoint.rs:87-97 | When low equals the visit number, every node of the segment reaches the closing node. |
| Tarjan.FinishedIsPartition | crates/ry-checker/src/fixpoint.rs:50-101 | The invariant of a finished run gives the partition. |
| Tarjan.FinishedIsStronglyConnected | crates/ry-checker/src/fixpoint.rs:50-101 | The invariant of a finished run gives mutual reachability in both directions, and the order. |
| Fixpoint.Checker.StoreReturn | crates/ry-checker/src/fixpoint.rs:327-336 | Storing leaves the bottom marker and reports a change exactly when the slot was at bottom or held something else. |
| Fixpoint.Checker.RefineNext | crates/ry-checker/src/fixpoint.rs:225-271 | Refining a member records its reads, stores its outcome unless it stays bottom, and wakes readers inside the queue or as pending. |
| Fixpoint.Checker.RefineMember | crates/ry-checker/src/fixpoint.rs:225-271 | The least queued member is refined; every function stays settled, queued, pending or widened. |
| Fixpoint.Checker.WidenComponent | crates/ry-checker/src/fixpoint.rs:217-274 | An exhausted budget sets exactly the component's slots to unknown and out of bottom, empties the queue, and leaves every function outside settled or pending. |
| Fixpoint.Checker.LiftStuck | crates/ry-checker/src/fixpoint.rs:255-271 | Exactly the slots of the members at bottom become unknown and leave bottom, and everyone they unsettle is queued or pending. |
| Fixpoint.Checker.DrainStuck | crates/ry-checker/src/fixpoint.rs:243-262 | With an empty queue the first pass leaves members at bottom pending; a later pass sets exactly the members at bottom to unknown, and ends the component when there is none. |
| Fixpoint.StuckIsDeadlocked | crates/ry-checker/src/fixpoint.rs:243-262 | With an empty queue, refining a member that is still at bottom leaves it there, unless the pass attached packages: no path returns a known value. |
| Fixpoint.Checker.Turn | crates/ry-checker/src/fixpoint.rs:214-275 | One turn of a component refines its least queued member, widens it when the budget is used up, or drains it; it lowers (budget left, slots at bottom) or ends the component, and adds its steps to the log. |
| Fixpoint.Checker.SettleComponent | crates/ry-checker/src/fixpoint.rs:207-276 | One component ends within eight refinements a member, keeps the pass invariant, leaves no member at bottom after the first pass, and keeps the table below every solution while nothing is lifted. |
| Fixpoint.Checker.Dependencies | crates/ry-checker/src/fixpoint.rs:193-198 | The read graph has an edge from each reader to each owner of a slot it read, and no other. |
| Fixpoint.Checker.Number | crates/ry-checker/src/fixpoint.rs:201-206 | Each function is numbered with the component that lists it. |
| Fixpoint.Checker.SettleAll | crates/ry-checker/src/fixpoint.rs:207-276 | A pass over disjoint components refines at most eight times the number of functions. |
| Fixpoint.Checker.Components | crates/ry-checker/src/fixpoint.rs:190-200 | The first pass runs each pending function alone in order; later passes run the strongly connected components of the read graph, each after those it depends on. |
| Fixpoint.Checker.PassOnMetadata | crates/ry-checker/src/fixpoint.rs:277-299 | After metadata or attachments change, everyone they can affect is pending, so every other function is still settled. |
| Fixpoint.Checker.RunPass | crates/ry-checker/src/fixpoint.rs:187-300 | A pass keeps the run invariant, and from the second pass on nothing in scope is at bottom. |
| Fixpoint.Checker.RunPasses | crates/ry-checker/src/fixpoint.rs:185-300 | At most eight passes run, with at most sixty-four times the number of functions refinements in all. |
| Fixpoint.Checker.RunFixpoint | crates/ry-checker/src/fixpoint.rs:148-308 | Out-of-scope slots keep their value; nothing ends at bottom; a converged run leaves every function not last written by widening at what refining it again gives, and records every read; with monotone refinement and nothing forced to unknown it is the least solution; with fixed acyclic reads it converges in two passes and refines nothing more than twice. Replaying the log of the run from its start gives the final table, the passes, each function's refinements and the widened functions, and each step of the log was allowed: a component is widened only after exactly eight refinements a member since it was taken up, with members queued; members at bottom are set to unknown only after the first pass, when there are some and refining them leaves them there (unless the pass attached packages). |
| Fixpoint.Checker.RunFixpointScoped | crates/ry-checker/src/fixpoint.rs:148-181 | An empty scope changes nothing; no slot of a function whose name is outside the scope is written; the functions in scope end stable with their reads recorded, at the least solution when refinement is monotone and nothing is forced to unknown; the log accounts for the scoped run. |
| Fixpoint.WriteElsewhere | crates/ry-checker/src/fixpoint.rs:225-271 | A write to slots a function does not read leaves it settled. |
| Fixpoint.RefinedSettled | crates/ry-checker/src/fixpoint.rs:225-271 | After a refinement every function that is not queued, pending or widened is still settled: no read found at run time is lost. |
| Fixpoint.WidenSettled | crates/ry-checker/src/fixpoint.rs:217-274 | Widening a component wakes or leaves settled every function outside it. |
| Fixpoint.LiftSettled | crates/ry-checker/src/fixpoint.rs:255-271 | The same for members lifted out of bottom. |
| Fixpoint.RefinedBelow | crates/ry-checker/src/fixpoint.rs:225-242 | With monotone refinement one step keeps the table below every table that absorbs refinement. |
| Fixpoint.GraphComponentsFlat | crates/ry-checker/src/fixpoint.rs:144-147 | With acyclic reads the second pass lists every function alone, after what it reads. |
| Restart.RestartIsCold | crates/ry-checker/src/project.rs:597-688 | For monotone refinement, restarting the affected functions at bottom with all others seeded from the previous solution gives exactly the cold solution, if no other function reads an affected one on tables up to that solution. |
| Restart.RestartAfterEdit | crates/ry-checker/src/project.rs:597-764 | The closure of the edited functions under the recorded reads, the seeds, and the scoped run together end with exactly the returns of a cold run, when the run converges and lifts nothing. |
| Restart.ClosureShelters | crates/ry-checker/src/project.rs:650-688 | A function outside the closure reads no function inside it, on any table up to the previous solution whose reads were recorded. |
| Restart.RunRecords | crates/ry-checker/src/fixpoint.rs:309-324 | The dependencies a converged run leaves are such a record, when knowing less never reads more. |
| Restart.SeedReturnTypes | crates/ry-checker/src/lib.rs:2290-2315 | Exactly the slots of functions outside the scope with a previous return get it; every other slot keeps its value. |
| Restart.WarmAbsorbs | crates/ry-checker/src/project.rs:756-764 | The seeded solution absorbs refinement of every function of the edited program. |
| Restart.PatchedAbsorbs | crates/ry-checker/src/lib.rs:2290-2315 | The cold solution on unaffected slots, with the previous one elsewhere, absorbs refinement of the previous program. |
| Restart.ColdAbsorbs | crates/ry-checker/src/lib.rs:2290-2315 | The cold solution solves the scoped run's own problem. |
| EvalFlags.Parameters.Rounds | crates/ry-checker/src/fixpoint.rs:277-294 | Rounds of both propagations over given rules only raise flags, never above what closure demands; a settled run holds the least flags above the collected ones closed under all rules; with a limit above four per parameter it always settles. |
| EvalFlags.Parameters.Propagate | crates/ry-checker/src/fixpoint.rs:354-592 | One propagation raises flags within every closed table above the old one, returns exactly the functions that changed, and none only when the table is closed. |
| EvalFlags.InheritNseFlags | crates/ry-checker/src/fixpoint.rs:104-126 | The parameter becomes the least flags above its own and the inherited ones, and a change is reported exactly when it changed. |
| EvalFlags.JoinIsLeast | crates/ry-checker/src/fixpoint.rs:104-126 | Inheriting gives the least flags above both, and changes nothing exactly when nothing new is offered. |
| EvalFlags.TableRises | crates/ry-checker/src/fixpoint.rs:277-294 | A table that rises and changes gets higher, so only finitely many rounds change flags. |
| EvalRules.PassOn | crates/ry-checker/src/fixpoint.rs:277-294 | From the program's methods and forwarding calls, the flags settle at the least ones above the collected that grant everything those ask for, within four rounds per parameter and one more. |
| EvalRules.MethodRules | crates/ry-checker/src/fixpoint.rs:354-403 | The rules are exactly those of a method's formal to the generic's formal of that name, or to its `...`, unless a statement before the dispatch may read it. |
| EvalRules.ForwardedRules | crates/ry-checker/src/fixpoint.rs:428-575 | The rules are exactly those of each forwarded formal's callee formal, by argument matching, of unresolved callees, and of formals defused once the calls that only probe them are passed over. |
| EvalRules.SkippedCalls | crates/ry-checker/src/fixpoint.rs:486-560 | The calls passed over are exactly those all of whose uses of the formal only probe it. |
| EvalRules.AskedFits | crates/ry-checker/src/fixpoint.rs:354-575 | Every rule is about formals its functions have. |
| ArgumentMatching.MatchArgumentNames | crates/ry-checker/src/infer/args.rs:264-334 | The three loops compute the three-pass matching, mark exactly the formals that are taken, and list exactly the named arguments without one. |
| ArgumentMatching.MatchIsOrdered | crates/ry-checker/src/infer/args.rs:253-334 | Exact names always get their formal; any other name gets a formal exactly when it abbreviates one alone of those before `...` that are free at its turn; no two such arguments share one; and unnamed arguments fill the free formals from left to right. |
| ArgumentMatching.SuppliedExactly | crates/ry-checker/src/infer/args.rs:315-334 | A formal before `...` has an argument exactly when a name took it or there are more unnamed arguments than formals before it that no name took. |
| Closures.WithRefinementCallers | crates/ry-checker/src/project.rs:650-688 | The worklist returns exactly the functions from which an edited function can be reached, and no function left out depends on one of them. |
| Closures.Invert | crates/ry-checker/src/project.rs:651-678 | The reverse edges are the recorded reads, forwarded calls and generic-to-method dependencies, and no others. |
| Closures.WithTransitiveCallers | crates/ry-checker/src/project.rs:709-727 | The repeat-until-stable loop returns the least set above the changed functions that is closed under files using one of them. |
| MergedTables.MergeCollected | crates/ry-checker/src/project.rs:526-546 | Merging files in order gives each name and method to its last file, keeps every slot's value, keeps every call site in file order, drops exactly the forwarded calls of overridden callers, and finds every literal another file may replace, earlier or later. |
| MergedTables.Merged.AppendCollected | crates/ry-checker/src/lib.rs:1633-1705 | Appending one file keeps all of that. |
| MergedTables.RebindCaptured | crates/ry-checker/src/lib.rs:1591-1601 | Exactly the literals under a name the writes may reach are added. |
| MergedTables.Merged.RetainCalls | crates/ry-checker/src/lib.rs:1657-1665 | Exactly the calls of callers that the later file takes over are dropped, and the others keep their order. |
| MergedTables.ExtendSites | crates/ry-checker/src/lib.rs:1696-1701 | Each callee keeps its call sites, followed by the later file's. |
| MergedTables.MergedReturns | crates/ry-checker/src/lib.rs:1633-1705 | Every merged function's slot lies in its own file's range and holds the return that file's table held. |
| MergedTables.MergedMethodReturns | crates/ry-checker/src/lib.rs:1681-1686 | So does every merged S3 method's. |
| MergedTables.SlotsApart | crates/ry-checker/src/lib.rs:1639-1640 | Functions of different files never share a slot. |
| Defaults.FirstBrought | crates/ry-checker/src/infer/mod.rs:3059-3117 | A default is brought exactly when some forwarding call brings one, and it is one that is brought. |
| Defaults.OmissionIsReal | crates/ry-checker/src/infer/mod.rs:3031-3037 | A formal before `...` that R leaves without an argument always counts as omitted; one that counts as omitted is left without exactly unless a name abbreviates it or named formals before it let unnamed arguments reach it. |
| Defaults.OmissionAfterDots | crates/ry-checker/src/infer/mod.rs:3031-3037 | After `...` a formal that counts as omitted always is, and only its own name supplies it. |
| Defaults.SuppliedCountsAsOmitted | crates/ry-checker/src/infer/mod.rs:3031-3037 | A call that supplies a formal and counts as omitting it. |
| Defaults.OmittedSomewhere | crates/ry-checker/src/lib.rs:1603-1618 | A formal is omitted at a merged call site exactly when some file omits it, in whatever order the files come. |
| Defaults.OnlyOmissionCounts | crates/ry-checker/src/infer/mod.rs:3007-3050 | While nothing forwards to it, a formal's type changes exactly when the calls that omit it go from none to some or back. |
| MergedEvidence.MergedIsGathered | crates/ry-checker/src/lib.rs:1657-1703 | Merging the files' tables leaves the call sites, the forwarding calls and the live definitions that the files' collections determine. |
| Rebounds.MergedIsRebound | crates/ry-checker/src/lib.rs:1633-1692 | Merging the files' tables in any order leaves exactly the literals that are replaced inside their file or may be written by another one. |
| Rebounds.UnnoticedDefiner | crates/ry-checker/src/project.rs:842-845 | If a file comes to define a name another file defines and the replaced literals stay the same, the file was there before, its literal stands at a replaced one's place, and every other literal of the name was replaced already. |
| Rebounds.AdditionNoticed | crates/ry-checker/src/lib.rs:1642-1655 | Binding one more name in a file changes the replaced literals exactly when some literal of the name elsewhere was not replaced, or the new one was not and another file may write the name. |
| FileOrder.SortSorts | crates/ry-checker/src/project.rs:283-288 | The files end in rank order and are the same files. |
| FileOrder.SortStable | crates/ry-checker/src/project.rs:283-288 | Two files keep their order unless their ranks say otherwise. |
| FileOrder.SortMoves | crates/ry-checker/src/project.rs:280-291 | Sorting changes the list exactly when two neighbours stand in the wrong order. |
| FileOrder.AnyInverted | crates/ry-checker/src/project.rs:284-287 | The scan finds an inverted pair exactly when there is one. |
| FileOrder.OrderIrrelevant | crates/ry-checker/src/project.rs:292-307 | A name without two definers has the same definers in any order of the files. |
| Project.Project.AddFile | crates/ry-checker/src/project.rs:226-240 | A new file is dirty; the other entries stay good except those of clean files whose modules were looked up at its path. |
| Project.AdditionSeen | crates/ry-checker/src/project.rs:226-240 | A file's view of the sources is the same before and after an addition exactly when none of its modules was looked up at the new path. |
| Project.Project.UpdateFile | crates/ry-checker/src/project.rs:242-266 | The file is replaced in place or appended, its old names are invalidated and its collection dropped; the cache invariant is kept. |
| Project.Project.RemoveFile | crates/ry-checker/src/project.rs:323-335 | The other files remain in their order, and all of them are dirty. |
| Project.Project.ReorderFiles | crates/ry-checker/src/project.rs:268-321 | The files are stably sorted, nothing changes exactly when no neighbours are inverted, and every name whose winning file changes is invalidated with every file defining it dirty. |
| Project.Project.SetCollecting | crates/ry-checker/src/project.rs:406-432 | New stubs or package facts drop every collection and make every file dirty; the same ones change nothing. |
| Project.Project.SetMetadata | crates/ry-checker/src/project.rs:337-352 | Changed metadata makes every file dirty; the same metadata changes nothing. |
| Project.Project.SetOpenBufferPaths | crates/ry-checker/src/project.rs:360-368 | Changed buffers make every file dirty when some file loads box modules. |
| Project.Project.CollectUncached | crates/ry-checker/src/project.rs:490-518 | Afterwards every file has the collection of its current contents. |
| Project.Project.ChangedFunctions | crates/ry-checker/src/project.rs:802-828 | The set is the least one with every function whose return or signature differs and every invalidated name that is closed under files using one of its members. |
| Project.Project.MustEmit | crates/ry-checker/src/project.rs:796-860 | Exactly these files are emitted: all of them when something shared, the replaced literals or the callable names changed; otherwise the dirty ones and the users of a changed function, or all when there are methods and any function changed. A file left out uses nothing that changed. |
| Project.Project.CheckIncremental | crates/ry-checker/src/project.rs:481-488 | After any operations each file's diagnostics, reused or not, equal emitting it on the current tables, except for files in `stale`, none of which was edited or is emitted. A file is there only if it was before, or a name it uses, directly or through the functions it calls, or a method, changed in a hidden way, or a name it defines or a screened name is not the same function any more, or the last method was lost, or one of its defaulted formals starts with another type than at the last emission. |
| Project.Project.Check | crates/ry-checker/src/project.rs:455-479 | A cold check gives every file what emitting it on the current tables gives. |
| Project.ReuseIsFresh | crates/ry-checker/src/project.rs:1014-1062 | Reusing an untouched file's entry gives what emitting it on the new tables would, outside these cases. |
| Project.FunctionKept | crates/ry-checker/src/project.rs:796-860 | A function whose return and signature are the same, and that is not invalidated, keeps its definers and mark, unless its facts changed in a hidden way. |
| Project.WithinKept | crates/ry-checker/src/project.rs:699-727 | What an untouched file uses, directly or through the bodies of the functions it calls, is not among the changed functions: the closure over files covers every chain of calls. |
| Project.LookKept | crates/ry-checker/src/infer/mod.rs:2730-2755 | Every function that emitting an untouched file looks at, also through the bodies of called functions, is the same in both tables, outside these cases. |
| Project.MethodsKept | crates/ry-checker/src/project.rs:830-860 | The methods are the same for an untouched file, unless the last one was lost or a hidden definition brought one. |
| Project.OnlyDirtyEmitted | crates/ry-checker/src/project.rs:802-860 | An edit that changes returns and signatures only of names the edited files had, and nobody uses, emits those files alone. |
| Project.DefinersKept | crates/ry-checker/src/project.rs:245-321 | A name that is not invalidated keeps its whole list of definers through updates and moves, unless its facts changed. |
| Project.OnlyHiddenChanges | crates/ry-checker/src/project.rs:796-860 | While the replaced literals are the same, the definitions and marks of a name that is not invalidated can only have changed in a hidden way. |
| ProjectExample.EditedDefinerIsMissed | crates/ry-checker/src/project.rs:802-860 | A run in which a definition added by an edit leaves a caller's diagnostics out of date: only the edited file is emitted. |
| ProjectExample.EditedMarkIsMissed | crates/ry-checker/src/project.rs:139-183 | A run in which an edit sets a called name to another value, and its caller's diagnostics stay out of date. |
| ProjectExample.NestedDefinerIsMissed | crates/ry-checker/src/project.rs:139-183 | A run in which an edit defines a nested function of the same name, and the file with the other one stays out of date. |
| ProjectExample.WithdrawnDefinerIsMissed | crates/ry-checker/src/project.rs:699-707 | A run in which an edit withdraws one of two definitions, and the file with the other one, which does not use it, stays out of date. |
| ProjectExample.LostMethodIsMissed | crates/ry-checker/src/project.rs:830-860 | A run in which an edit loses the last method, and a file that dispatches stays out of date. |
| ProjectExample.RewrittenLengthIsMissed | crates/ry-checker/src/infer/binop.rs:1262-1332 | A run in which an edit rewrites a function named like a `length` method, and a file that does not call it stays out of date. |
| ProjectExample.EditedOk | crates/ry-checker/src/project.rs:242-266 | The states of these runs are what a first check and an edit leave, and meet the invariant that every operation keeps. |
| DefaultsExample.EditedCallIsMissed | crates/ry-checker/src/infer/mod.rs:3007-3050 | A run in which an edit omits an argument, and the file with the called function, whose formal now starts with its default, stays out of date. |
| DefaultsExample.EditedOk | crates/ry-checker/src/project.rs:242-266 | The state of this run is what a first check and an edit leave, and meets the invariant. |
| BoxExample.AddedModuleIsMissed | crates/ry-checker/src/project.rs:226-240 | A run in which a module joins the project with other exports than its disk copy, and the file that loads it stays out of date. |
| BoxExample.AddedOk | crates/ry-checker/src/project.rs:226-240 | The state of this run is what a first check and an addition leave, and meets the invariant. |
| BoxModules.Checker.BoxModuleInventory | crates/ry-checker/src/box_imports.rs:751-797 | With a sound cache an import gets the entry its module determines, the cycle flag rises exactly when the module reaches an import cycle, and the cache stays sound; loading ends. |
| BoxModules.Checker.AnalyzeBoxModule | crates/ry-checker/src/box_imports.rs:800-859 | The analysis meets a cycle exactly when the module reaches one, and otherwise yields the inventory its imports determine. |
| BoxModules.AnalysisDetermined | crates/ry-checker/src/box_imports.rs:800-859 | Whatever was loaded before, the stored entry is the one the acyclic imports determine, or none. |
| BoxModules.EveryInterleaving | crates/ry-checker/src/box_imports.rs:22-30 | After any schedule of any number of checkers, a cached module is none exactly when it reaches an import cycle and otherwise holds the inventory it determines. |
| BoxModules.StepOk | crates/ry-checker/src/box_imports.rs:751-797 | Each lock-protected step of any checker keeps that. |
| BoxModules.StepCosts | crates/ry-checker/src/box_imports.rs:751-797 | Each step lowers a cost of the checker that takes it, since the modules being loaded never repeat. |
| BoxModules.ReachesCycleByImport | crates/ry-checker/src/box_imports.rs:755-760 | A module reaches a cycle exactly when an import does or closes one. |
| Definitions.Definitions.Bind | crates/ry-checker/src/definitions.rs:205-248 | Binding keeps the table a faithful index of the log with that binding added, and returns the replaced slot. |
| Definitions.Definitions.Append | crates/ry-checker/src/definitions.rs:250-279 | Appending a later table equals replaying its log with shifted slots. |
| Definitions.Definitions.MarkUnstable | crates/ry-checker/src/definitions.rs:172-175 | Marking keeps the table faithful to the log with that mark. |
| Definitions.Definitions.Get | crates/ry-checker/src/definitions.rs:150-155 | A literal is found exactly when it was ever bound, with its own identity and last binding. |
| Definitions.Definitions.IsLive | crates/ry-checker/src/definitions.rs:158-160 | A literal is live exactly when its last binding is still the last one of its spelling. |
| Definitions.Definitions.HasSingleContract | crates/ry-checker/src/definitions.rs:163-165 | A plain name has one contract exactly when it was not marked and no two of its literals disagree on formals. |
| Definitions.Definitions.HasSingleDefinition | crates/ry-checker/src/definitions.rs:168-170 | And one definition exactly when, besides, no two different literals bound it. |
| Definitions.BindRepresents | crates/ry-checker/src/definitions.rs:205-248 | All five indexes follow the log through one binding. |
| Definitions.MergedRepresents | crates/ry-checker/src/definitions.rs:250-279 | And through a merge, in whatever order the later table's names are taken. |
| Definitions.StillBoundButNotLive | crates/ry-checker/src/definitions.rs:238-247 | A literal bound under two spellings is not live after its recorded spelling is rebound, though the other still binds it. |
| Definitions.QuotedNameDependsOnOrder | crates/ry-checker/src/definitions.rs:216-234 | For a name itself spelled in quotes, whether it counts as redefined depends on the order of binding. |
| SubAssign.WriteLengthSound | crates/ry-checker/src/lib.rs:259-413 | For every covered atomic vector or NULL and every completed write, the computed length holds the length R gives, exactly unless the name written is only recorded, as the empty name or as a position. |
| SubAssign.WriteNamesSound | crates/ry-checker/src/lib.rs:414-461 | The recorded names stay right exactly unless a repeated name was deleted, or a computed subscript selects a name outside a complete schema and the mode does not change. |
| SubAssign.WriteShapeSound | crates/ry-checker/src/lib.rs:346-379 | The computed mode fits what R leaves: NULL, an atomic vector or a list. |
| SubAssign.ListNamedSound | crates/ry-checker/src/infer/mod.rs:4017-4068 | The same for a named `$` or `[[` write into a list, with its exact conditions. |
| SubAssign.ListPositionSound | crates/ry-checker/src/infer/mod.rs:3965-4016 | A positional or computed write into a list is always covered. |
| SubAssign.RecordedSound | crates/ry-checker/src/infer/mod.rs:3941-3964 | A write to an element recorded by position keeps the type, and the length is right exactly unless it is exact and no element stands there. |
| SubAssign.ListCovered | crates/ry-checker/src/infer/types.rs:352-380 | The type of `list(...)` covers the list, with named and unnamed arguments in any order. |
| SubAssign.WriteListNames | crates/ry-checker/src/infer/mod.rs:3784-3817 | The loop over listed names computes the tally that `SubAssign.TallyCovers` relates to R's own appends. |
| SubAssign.ListNamesSound | crates/ry-checker/src/infer/mod.rs:3765-3820 | A `[` write of listed names into a list always leaves the names covered, and the length exactly unless it is exact, all names are decided, and one is only recorded. |
| SubAssign.ListNamesNull | crates/ry-checker/src/infer/mod.rs:3765-3820 | With NULL the length is right exactly when the value exceeds its least length by as many elements as match and as many names as are counted as new. |
| SubAssign.RunSound | crates/ry-checker/src/lib.rs:259-462 | Along any run of literal writes that meets none of these cases, from a value without repeated names, the computed type covers the value R has. |
| SubAssign.ListRunSound | crates/ry-checker/src/infer/construct.rs:655-683 | The same from a list as it is constructed. |
| SubAssign.PositionTakenForName | crates/ry-checker/src/infer/mod.rs:4017-4068 | A run in which the key of an unnamed element is taken for a name. |
| SubAssign.NameTakenForPosition | crates/ry-checker/src/infer/mod.rs:3941-3964 | A run in which a name spelled like a position is taken for an element that is not there. |
| SubAssign.EmptyNameWrittenTwice | crates/ry-checker/src/lib.rs:211-227 | A run in which a recorded empty name makes the length wrong. |
| SubAssign.ComputedNameCountedTwice | crates/ry-checker/src/lib.rs:451-460 | A run in which a schema that stayed complete makes the length wrong. |
| SubAssign.RepeatedNameCountedTwice | crates/ry-checker/src/infer/mod.rs:4025-4041 | A run in which a forgotten second name makes the length wrong. |
| SubAssign.ListNamesNullKeepsLength | crates/ry-checker/src/infer/mod.rs:3786-3817 | A NULL write that deletes the only element keeps a length of one. |
| RTypes.Join | crates/ry-core/src/types.rs:252-267 | The merge of two lengths holds every length either holds. |
| RTypes.LowerBound | crates/ry-core/src/types.rs:221-230 | The canonical bound holds exactly the lengths from it up. |
| Contracts.CompareSound | crates/ry-checker/src/declaration_check.rs:347-406 | Over nested unions, compatible means every value of the type satisfies the constraint and incompatible that none does, whatever its parts without a claim mean. |
| Contracts.CompareActualSound | crates/ry-checker/src/declaration_check.rs:408-452 | The same for an actual argument whose own syntax proves its class. |
| Contracts.CombineAny | crates/ry-checker/src/declaration_check.rs:454-471 | The early-exit loop answers compatible exactly when some result is, and incompatible exactly when there is a result and all are. |
| Contracts.CombineAll | crates/ry-checker/src/declaration_check.rs:473-491 | The loop gives a definite answer exactly when there is a result and all agree on it. |
| Contracts.BodyEntryCovers | crates/ry-checker/src/declaration_check.rs:506-531 | Every value satisfying a constraint has its body entry type. |
| Contracts.BodyEntryNeverIncompatible | crates/ry-checker/src/declaration_check.rs:506-531 | The body entry type is never a proven violation of its own constraint. |
| Contracts.BodyEntryWellFormed | crates/ry-checker/src/declaration_check.rs:506-531 | A body entry type keeps canonical lengths and claims nothing about the class. |
| Declarations.DecideTarget | crates/ry-checker/src/declaration_check.rs:184-284 | A signature is selected exactly when no adopted record is reported and their canonical spellings are one and the same, in whatever order they come; a conflict is reported exactly when they differ or some record is unusable beside a usable one. |
| Declarations.MatchesFormals | crates/ry-checker/src/declaration_check.rs:286-338 | With distinct formals the scan accepts exactly the signatures that are an ordered subset of the formals with matching forms and defaults; an absent or misordered parameter is named exactly where no ordered match exists. |
| Captures.Collector.CollectCaptureWrites | crates/ry-checker/src/collect.rs:686-738 | A literal counts as replaced exactly when a name it was bound to is bound again later in the same function frame, or may be written from outside. |
| Captures.Collector.Walk | crates/ry-checker/src/collect.rs:695-733 | The truncating frame stack over the preorder walk computes what replaying each lexical frame computes, for every nesting and every sibling function. |
| Captures.Collector.Visit | crates/ry-checker/src/collect.rs:695-733 | One step drops finished frames, records the binding in its own frame, and opens a frame for a function. |
| Captures.ReplayFindsRebound | crates/ry-checker/src/collect.rs:712-725 | Replaying one frame finds exactly the literals a later binding of the same name replaces. |
| Captures.ReplayIsLexical | crates/ry-checker/src/collect.rs:678-733 | Frame by frame, replaying is the recursive lexical reading. |
| Captures.Collector.AddExposed | crates/ry-checker/src/collect.rs:734-738 | Exactly the literals under names that may be written from outside are added. |
| Baseline.WriteBaseline | crates/ry-config/src/baseline.rs:54-72 | The entries have distinct keys and hold each key's number of occurrences. |
| Baseline.Run.SubtractBaseline | crates/ry-config/src/baseline.rs:82-116 | What remains is the list of diagnostics beyond their key's budget. |
| Baseline.ExcessCount | crates/ry-config/src/baseline.rs:101-115 | Per key, exactly the smaller of budget and occurrences is removed. |
| Baseline.ExcessKeepsOrder | crates/ry-config/src/baseline.rs:101-115 | What remains keeps its order, and the first occurrences of a key are the ones removed. |
| Baseline.OwnBaseline | crates/ry-config/src/baseline.rs:49-116 | Subtracting its own baseline leaves nothing of a list, and of any other list exactly what it has more. |
| Baseline.Run.PostDemotion | crates/ry-checker/src/post_process.rs:193-203 | Demotion, subtraction and the threshold run in this order on the list in place. |
| Baseline.SilentWhenNoneReported | crates/ry-checker/src/post_process.rs:193-203 | A run is silent exactly when no diagnostic meets the threshold after earlier occurrences of its key, of any confidence, used the budget up. |
| Baseline.ThresholdLastReportsMore | crates/ry-checker/src/post_process.rs:193-203 | Per key this order reports at least as much as applying the threshold first. |
| Baseline.WrittenAboveThreshold | crates/ry-cli/src/check.rs:259-270 | A baseline written after the threshold silences the same run exactly when no diagnostic below the threshold precedes one at or above it with the same key. |
| Baseline.ShadowedComesBack | crates/ry-cli/src/check.rs:259-270 | A run in which the recorded diagnostic comes back. |

## Left out

- R parsing, the AST walk and inference: parameters, with the frame conditions named above.
- Fixpoint.Checker.RunFixpoint: the least-solution claim asks for monotone refinement, settled metadata and no walk that
  attaches a package, and is made only for runs that set no return to unknown to force an end.
- Fixpoint.Checker.PassOnMetadata: the two propagations are arbitrary functions of the metadata there; their own laws are
  in `EvalFlags` and `EvalRules`, where attachments are fixed during a round.
- EvalRules.PassOn: which function a call selects, a stub's flags, which formals are only probed, what a preamble may read,
  and whether a body defuses a formal are given with the program.
- Seeding S4 parameter names before a run, and the whole S4 inventory: one opaque part of the shared facts.
- Restart.RestartAfterEdit: the record is taken to hold what a function reads on every table up to the previous solution,
  as it does when knowing less never reads more; metadata is settled; slots keep their numbers through the edit.
- Project: paths are unique; names that differ only in quotes count as different names; refined returns, signatures and
  the shared facts of a check other than the replaced literals are parameters; scope records, reference facts and
  declaration findings are not modelled; which definitions of a file are methods is given as collected; the opt-in
  reference capture that emits every file is not modelled.
- Project.LookKept: which names are screened is a parameter (`length` methods, functions named like operators or group
  generics); an edit that adds, removes or moves a declared function is taken to come with its declarations set anew.
- Project.AdditionSeen: module paths stand for the identities they resolve to, and disk copies do not change.
- Defaults.FirstBrought: whether a caller's body may replace or test a formal before a call is given with the definition; a
  qualified callee selects by its own spelling, not by a quoted one; a file's own forwarding calls are given as collected.
- Defaults.OmissionIsReal: the arguments are those written; a call that passes `...` on may supply more.
- Definitions.Definitions.Append: the two tables share no literal, as tables of different files do not.
- Selection by namespace (`select_in`), which takes any matching function of a package.
- Box modules: a module's imports are a fixed finite set; paths, file reads, symbolic links and package inventories.
- SubAssign.WriteLengthSound: element types, class attributes, data frames, dimensions, missing subscripts and `is.na(x)`
  repairs; `[[` with several subscripts is taken to leave the outer names alone.
- Contracts.CompareSound: whether a value has dimensions enters only through its implied class.
- Captures: which nodes bind, write outward or are function literals is given with each node; the tables filled from the
  result are not modelled.
- Baseline.WriteBaseline: the order of the entries, and reading and writing the file.
- Typeshed stubs, NSE schema rules, S3 lookup ladders, force-flow heuristics and output formats.
