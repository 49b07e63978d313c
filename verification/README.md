# swift-toledo in Dafny

A model of the core of swift-toledo, a Swift dependency-injection library, and of its older sibling Injectable. Each has two halves:

- **The runtime.** A `SharedContainer` holds one value per dependency-key type and falls back to the key's `defaultValue`. Memoizing providers build a dependency on first use and cache it:
  - the plain provider (`_DependencyProvider`);
  - the throwing provider (`_ThrowingDependencyProvider`, `_FailableDependencyProvider`);
  - the asynchronous provider (`_AsyncThrowingDependencyProvider`, or the `_AsyncFailableDependencyProvider` actor).

  `getValue` returns the cached value or runs the factory. `replaceProvider` empties the cache and installs a new factory.
- **The code generator.** A scanner walks the tokens of a Swift file. It records every type declared or extended with one of the three dependency markers among its conformances, and ToledoTool also records the file's imports. ToledoTool's builder then derives a provider key and a container accessor for each recorded type.

Layout:

| file | module | models |
|---|---|---|
| `basics.dfy` | `Basics` | `Option` and `Outcome` (a value or a thrown error) |
| `memo.dfy` | `Memo` | the cache discipline shared by the synchronous providers of both runtimes |
| `toledo.dfy` | `Toledo` | `Sources/Toledo/Dependency.swift` |
| `injectable.dfy` | `Injectable` | `Sources/Injectable/Dependency.swift` |
| `tokens.dfy` | `Tokens` | the SwiftSyntax tokens the scanners tell apart |
| `toledo_tool.dfy` | `ToledoTool` | `Sources/ToledoTool/ToledoTool.swift` |
| `injectable_tool.dfy` | `InjectableTool` | `Sources/InjectableTool/InjectableTool.swift` |

Modelling choices:

- **Factories.** A factory, `V(with: container)` or an override closure, is a total function. Besides the container it takes a `seed: nat`, which stands for the state of the world at the call (random UUIDs, clocks). A factory that can throw returns an `Outcome`.
- **Interleaving.** Toledo's providers and container run on the main actor, and Injectable's asynchronous provider is an actor, so their operations interleave only at an `await`. Injectable's synchronous providers are plain classes; the model treats calls to them as serialized (see Left out). Each asynchronous `getValue` is therefore split at its one `await`:
  - `Begin` is everything before the `await`;
  - `Finish` is everything after it;
  - any other operation may run in between.
- **Tasks.** A Swift `Task` runs the factory once. Its outcome is fixed when it is spawned, and every `await` of it yields that outcome.
- **Classes and specifications.** Provider state lives in classes whose methods update fields in place. Each method is proved equal to a pure specification function of the old state, and the properties are lemmas about those functions.
- **Scanners.** A scanner's `visit` is a class method over the token sequence, proved equal to a one-token step function. `parse` is a loop of visits, proved equal to a walk over the whole file.

## Model

| member | source | states |
|---|---|---|
| Toledo.SharedContainer.Get | Sources/Toledo/Dependency.swift:13-16 | the stored value for the key's identity if one was stored, otherwise the key's default |
| Toledo.SharedContainer.Set | Sources/Toledo/Dependency.swift:17-19 | only the key's slot changes; a get of that key then returns the new value; every other key keeps its value or absence |
| Toledo.SharedContainer.constructor | Sources/Toledo/Dependency.swift:9-11 | a new container stores no value |
| Toledo.ThrowingDependencyProvider.constructor | Sources/Toledo/Dependency.swift:66-71 | a new throwing provider has nothing cached and no override |
| Toledo.Task.constructor | Sources/Toledo/Dependency.swift:42-44 | a task carries the outcome of the one factory run it performs |
| Toledo.DependencyProvider.constructor | Sources/Toledo/Dependency.swift:94-99 | a new provider has nothing cached and no override |
| Toledo.DependencyProvider.GetValue | Sources/Toledo/Dependency.swift:101-113 | the cached value on a hit; on a miss, one run of the override if installed, else of `V(with:)`, stored and returned (`Memo.Resolve`) |
| Toledo.DependencyProvider.ReplaceProvider | Sources/Toledo/Dependency.swift:115-118 | empties the cache and installs the override |
| Toledo.ThrowingDependencyProvider.GetValue | Sources/Toledo/Dependency.swift:73-85 | as the plain provider, but a thrown error is returned and nothing is cached (`Memo.ResolveFallible`) |
| Toledo.ThrowingDependencyProvider.ReplaceProvider | Sources/Toledo/Dependency.swift:87-90 | empties the cache and installs the override |
| Memo.Resolve | Sources/Toledo/Dependency.swift:101-113 | after a call the cache holds exactly the returned value; the factory runs iff the cache was empty (also `Sources/Injectable/Dependency.swift:78-85`) |
| Memo.ResolveFallible | Sources/Toledo/Dependency.swift:73-85 | a success is cached and returned; an error leaves an empty cache empty; the factory runs iff nothing was cached (also `Sources/Injectable/Dependency.swift:54-61`) |
| Memo.FirstSuccess | Sources/Toledo/Dependency.swift:77-84 | the index of the first call whose factory run succeeds: all earlier runs fail, that one succeeds |
| Memo.ResolveAllFromCache | Sources/Toledo/Dependency.swift:102-104 | once a value is cached, every later call returns it and the factory never runs |
| Memo.ResolveAllAgree | Sources/Toledo/Dependency.swift:101-113 | any run of consecutive calls: every caller gets the same value, which stays cached; the factory runs once if the cache started empty, else never |
| Memo.ResolveAllFallibleFromCache | Sources/Toledo/Dependency.swift:74-76 | a cached value is returned to every later call of a throwing provider without running the factory |
| Memo.FallibleRetriesUntilSuccess | Sources/Toledo/Dependency.swift:77-84 | failures are not cached: each call before the first success runs the factory and gets its own error; the first success is cached and returned to every later call; runs = failures + 1 |
| Toledo.ReplaceThenResolve | Sources/Toledo/Dependency.swift:115-118 | after `replaceProvider`, the next call runs the new override and returns its value |
| Toledo.ReplaceThenResolveFallible | Sources/Toledo/Dependency.swift:87-90 | after `replaceProvider` on a throwing provider, the next call runs the new override |
| Toledo.AsyncBegin | Sources/Toledo/Dependency.swift:32-53 | up to the `await`: keeps value and provider, joins the held task or spawns at most one new task, and holds the awaited task |
| Toledo.AsyncFinish | Sources/Toledo/Dependency.swift:54-55 | after the `await`, as written: returns the awaited outcome and stores a success in `_value` (a failure leaves it); task, tasks and provider unchanged |
| Toledo.AsyncReplace | Sources/Toledo/Dependency.swift:58-62 | clears the held task and the cached value, installs the override, keeps spawned tasks' outcomes |
| Toledo.AsyncGet | Sources/Toledo/Dependency.swift:32-56 | a hit returns the cached value and changes nothing; otherwise the held task's outcome, or a new task running the effective factory; afterwards the slot is `Settled`: a success cached, a failure held |
| Toledo.SettledGetRepeats | Sources/Toledo/Dependency.swift:33-40 | a call on a settled slot returns what it settled on and changes nothing: no task is spawned |
| Toledo.AsyncBeginAll | Sources/Toledo/Dependency.swift:32-53 | callers reaching the `await` in turn leave value and provider as they were and only add tasks |
| Toledo.AsyncFinishAll | Sources/Toledo/Dependency.swift:54-55 | callers resuming in turn change no task and no provider |
| Toledo.AsyncGetAll | Sources/Toledo/Dependency.swift:32-56 | consecutive calls all get the first call's outcome; at most one task is spawned; nothing changes after the first call; with a value cached, every call gets it and nothing changes |
| Toledo.LaterCallsRepeat | Sources/Toledo/Dependency.swift:33-54 | after a call, every later call gets the same outcome without running a factory, and the slot stays as that call left it |
| Toledo.BeginAllJoins | Sources/Toledo/Dependency.swift:39-40 | while a task is held and nothing is cached, every caller joins it and nothing changes |
| Toledo.SingleFlight | Sources/Toledo/Dependency.swift:39-52 | callers arriving before any value is cached all wait on one task; at most one task is spawned, running the first caller's factory |
| Toledo.FinishAllShare | Sources/Toledo/Dependency.swift:40-55 | callers waiting on one task all receive its outcome; if it succeeded, its value ends up cached |
| Toledo.ConcurrentCallersAgree | Sources/Toledo/Dependency.swift:32-56 | concurrent first calls on a fresh slot: exactly one task is spawned and every caller gets its outcome (the library's concurrency test) |
| Toledo.ConcurrentSuccessCached | Sources/Toledo/Dependency.swift:32-56 | after concurrent first calls resume, the slot is settled on the shared outcome: a success is cached, and every later call gets that outcome without a new task |
| Toledo.GetAllReplaysFailure | Sources/Toledo/Dependency.swift:39-40 | while the held task has failed and nothing is cached, every call gets that failure and the state does not change |
| Toledo.FailureReplayed | Sources/Toledo/Dependency.swift:45-54 | once a call has failed, every later call gets the same failure without running a factory, until `replaceProvider` |
| Toledo.ReplaceThenGet | Sources/Toledo/Dependency.swift:58-62 | after `replaceProvider`, the next call spawns a new task that runs the new override, and returns its outcome |
| Toledo.FirstGetMatchesThrowing | Sources/Toledo/Dependency.swift:41-54 | a first call on an empty slot returns what the throwing provider would, and caches exactly on success |
| Toledo.ResumeAfterReplaceKeepsOldValue | Sources/Toledo/Dependency.swift:46-54 | as written, a caller suspended across `replaceProvider` stores the old task's value, and the next call returns that value instead of running the override |
| Toledo.StaleValueExample | Sources/Toledo/Dependency.swift:46-62 | concrete case: old factory yields 1, override yields 2, the call after the replacement gets 1 |
| Toledo.AsyncFinishChecked | Sources/Toledo/Dependency.swift:54 | corrected resume: returns the awaited outcome, but changes nothing unless that task is still the held one |
| Toledo.FinishCheckedOnHeldTask | Sources/Toledo/Dependency.swift:54 | for a caller awaiting the held task, the corrected resume is the original one |
| Toledo.AsyncFinishAllChecked | Sources/Toledo/Dependency.swift:54-55 | corrected resumes in turn change no task and no provider |
| Toledo.ReplaceIsolatesOldTasks | Sources/Toledo/Dependency.swift:58-62 | with the correction, callers suspended across `replaceProvider` get their tasks' outcomes, leave the slot empty, and the next call runs the override |
| Toledo.AsyncThrowingDependencyProvider.constructor | Sources/Toledo/Dependency.swift:30 | a new provider is in the empty state |
| Toledo.AsyncThrowingDependencyProvider.Begin | Sources/Toledo/Dependency.swift:32-53 | the class up to the `await` is exactly `AsyncBegin` on its abstract state; the returned task is one it spawned |
| Toledo.AsyncThrowingDependencyProvider.Finish | Sources/Toledo/Dependency.swift:54-55 | the class after the `await` is exactly `AsyncFinish` |
| Toledo.AsyncThrowingDependencyProvider.GetValue | Sources/Toledo/Dependency.swift:32-56 | an uninterrupted call is exactly `AsyncGet` |
| Toledo.AsyncThrowingDependencyProvider.ReplaceProvider | Sources/Toledo/Dependency.swift:58-62 | exactly `AsyncReplace`; spawned tasks are kept |
| Injectable.SharedContainer.constructor | Sources/Injectable/Dependency.swift:10 | a new container stores no value |
| Injectable.DependencyProvider.constructor | Sources/Injectable/Dependency.swift:74-76 | nothing cached; the given closure installed |
| Injectable.FailableDependencyProvider.constructor | Sources/Injectable/Dependency.swift:50-52 | nothing cached; the given closure installed |
| Injectable.AsyncFailableDependencyProvider.constructor | Sources/Injectable/Dependency.swift:26-28 | nothing cached; the given closure installed |
| Injectable.SharedContainer.Get | Sources/Injectable/Dependency.swift:11-14 | the stored value for the key's identity, otherwise the key's default |
| Injectable.SharedContainer.Set | Sources/Injectable/Dependency.swift:15-17 | only the key's slot changes and a get of it returns the new value |
| Injectable.DependencyProvider.GetValue | Sources/Injectable/Dependency.swift:78-85 | hit returns the cache without calling the closure; miss calls it once and caches (`Memo.Resolve`) |
| Injectable.DependencyProvider.ReplaceProvider | Sources/Injectable/Dependency.swift:87-90 | clears the cache and swaps the closure |
| Injectable.FailableDependencyProvider.GetValue | Sources/Injectable/Dependency.swift:54-61 | a thrown error leaves the cache empty (`Memo.ResolveFallible`) |
| Injectable.FailableDependencyProvider.ReplaceProvider | Sources/Injectable/Dependency.swift:63-66 | clears the cache and swaps the closure |
| Injectable.ActorFinish | Sources/Injectable/Dependency.swift:34-36 | after the `await`: returns the run's outcome; a success is cached, a failure leaves the cache as it was |
| Injectable.AsyncFailableDependencyProvider.Begin | Sources/Injectable/Dependency.swift:30-34 | up to the `await`: a hit returns the cache, a miss runs the closure; the actor's state is untouched |
| Injectable.AsyncFailableDependencyProvider.Finish | Sources/Injectable/Dependency.swift:34-36 | after the `await`, exactly `ActorFinish` |
| Injectable.AsyncFailableDependencyProvider.GetValue | Sources/Injectable/Dependency.swift:30-37 | an uninterrupted call caches only successes and keeps no task, so failures are retried (`Memo.ResolveFallible`) |
| Injectable.AsyncFailableDependencyProvider.ReplaceProvider | Sources/Injectable/Dependency.swift:39-42 | clears the cache and swaps the closure |
| Injectable.UninterruptedActorIsFailable | Sources/Injectable/Dependency.swift:30-37 | Begin followed directly by Finish is the failable provider's `getValue` |
| Injectable.FinishAllKeepsLastSuccess | Sources/Injectable/Dependency.swift:34-36 | callers resuming in turn each get their own run's outcome; the cache ends with the last success, or unchanged if none succeeded |
| Injectable.FinishAllStep | Sources/Injectable/Dependency.swift:34-36 | one more resuming caller appends its outcome, counts one run, and replaces the cache exactly when its run succeeded |
| Injectable.FinishAllResults | Sources/Injectable/Dependency.swift:34-36 | resuming callers each return their own run's outcome; one run per caller |
| Injectable.FinishAllFailed | Sources/Injectable/Dependency.swift:34-36 | when every run failed, the cache is left as it was |
| Injectable.FinishAllLastSuccess | Sources/Injectable/Dependency.swift:34-36 | the cache ends with the value of the last successful run |
| Injectable.InterleavedCallersEachRun | Sources/Injectable/Dependency.swift:30-37 | no single flight: callers arriving before a value is cached each run the closure, each gets its own outcome, and the last success wins the cache |
| Injectable.ResumeAfterReplaceKeepsOldValue | Sources/Injectable/Dependency.swift:34-42 | a caller suspended across `replaceProvider` caches the old closure's value, and the next call returns it |
| ToledoTool.ParseIdentifier | Sources/ToledoTool/ToledoTool.swift:53-56 | parses exactly the three raw values, each to its own case |
| ToledoTool.SignatureMatchesPrefix | Sources/ToledoTool/ToledoTool.swift:58-78 | `async throws` goes with `try await`, `throws` with `try`, and no effects with no prefix |
| ToledoTool.NameRunEnd | Sources/ToledoTool/ToledoTool.swift:147-168 | the end of the maximal run of identifiers other than `final` and periods |
| ToledoTool.DefinitionsLookup.constructor | Sources/ToledoTool/ToledoTool.swift:92-94 | not scanning, no pending name, nothing collected |
| ToledoTool.DefinitionsLookup.NextFullyQualifiedIdentifier | Sources/ToledoTool/ToledoTool.swift:141-171 | the initial value, then the identifiers of the dotted run after the token; stops at any other token or at `final` |
| ToledoTool.DefinitionsLookup.Visit | Sources/ToledoTool/ToledoTool.swift:96-134 | the new state is `VisitStep`; descends iff scanning after the token |
| ToledoTool.DefinitionsLookup.Parse | Sources/ToledoTool/ToledoTool.swift:136-139 | the state after visiting every token in order is the walk over the file |
| ToledoTool.VisitRules | Sources/ToledoTool/ToledoTool.swift:97-127 | a type keyword starts a header; `{` ends it and clears the name; identifiers outside a header change nothing; the first name sticks; only a marker inside a header adds a definition |
| ToledoTool.VisitAppends | Sources/ToledoTool/ToledoTool.swift:102-121 | a visit only appends definitions and imports, and keeps names distinct |
| ToledoTool.ImportScanned | Sources/ToledoTool/ToledoTool.swift:102-104 | `import A.B.C` outside a header appends exactly `"A.B.C"`, the path joined with periods, to the imports and changes nothing else |
| ToledoTool.ImportPath | Sources/ToledoTool/ToledoTool.swift:141-171 | after `import`, `nextFullyQualifiedIdentifier` returns exactly the parts of the dotted path, stopping at the first token that is neither an identifier nor a period |
| ToledoTool.PathWalkQuiet | Sources/ToledoTool/ToledoTool.swift:105-108 | outside a header, identifiers and periods leave the scanner unchanged |
| ToledoTool.WalkKeepsNamesDistinct | Sources/ToledoTool/ToledoTool.swift:116-121 | after any walk, definition names are pairwise distinct and earlier data is kept |
| ToledoTool.ScanNamesDistinct | Sources/ToledoTool/ToledoTool.swift:116-121 | the definitions found in any file have distinct names |
| ToledoTool.WalkSplit | Sources/ToledoTool/ToledoTool.swift:136-139 | walking two adjacent stretches is walking their union |
| ToledoTool.ConformanceStep | Sources/ToledoTool/ToledoTool.swift:105-121 | inside a header with a pending name, one more conformance records the name with its first marker, unless already recorded |
| ToledoTool.HeaderScanned | Sources/ToledoTool/ToledoTool.swift:98-114 | keyword then type name: scanning, the name pending, recorded if it is itself a marker |
| ToledoTool.ConformancesScanned | Sources/ToledoTool/ToledoTool.swift:96-127 | the name and the first k conformances: the name is recorded once, with the first marker among them |
| ToledoTool.DeclarationScanned | Sources/ToledoTool/ToledoTool.swift:96-127 | a whole `kw Name: C1, …, Cn { }` records Name once with its first marker, unless already recorded, and leaves the header |
| ToledoTool.TwoDeclarationsScanned | Sources/ToledoTool/ToledoTool.swift:96-139 | a file of two declarations records each as `DeclarationScanned` says, in order |
| ToledoTool.LowercaseChar | Sources/ToledoTool/ToledoTool.swift:176 | a capital becomes the same letter in lower case; anything else is kept; the result is never a capital |
| ToledoTool.LowercasedFirstLetter | Sources/ToledoTool/ToledoTool.swift:175-177 | same length, the first character lowercased, the rest unchanged, empty to empty |
| ToledoTool.LowercasedFirstLetterFixes | Sources/ToledoTool/ToledoTool.swift:175-177 | a name is unchanged iff it is empty or does not start with a capital |
| ToledoTool.LowercasedFirstLetterIdempotent | Sources/ToledoTool/ToledoTool.swift:175-177 | applying it twice is applying it once |
| ToledoTool.Build | Sources/ToledoTool/ToledoTool.swift:187-211 | nil iff no definitions; imports forwarded; per definition, in order: key `name+raw+ProviderKey`, provider type `_<raw>Provider<name>`, accessor `lowercasedFirstLetter(name)`, the marker's signature and call prefix, result `name.ResolvedTo` |
| ToledoTool.BuildOfScanResolvesDistinctTypes | Sources/ToledoTool/ToledoTool.swift:196-206 | for any file, the generated accessors resolve pairwise distinct types |
| ToledoTool.KeyNameCollision | Sources/ToledoTool/ToledoTool.swift:197 | `struct A: ThrowingDependency` and `struct AThrowing: Dependency` are both recorded under different names yet get the same key name |
| ToledoTool.CollidingFileScanned | Sources/ToledoTool/ToledoTool.swift:96-139 | a file declaring `A: ThrowingDependency` and then `AThrowing: Dependency` yields exactly those two definitions, in order |
| ToledoTool.CorrectedKeyNameInjective | Sources/ToledoTool/ToledoTool.swift:197 | the corrected key (raw value first) determines the definition |
| ToledoTool.BuildCorrected | Sources/ToledoTool/ToledoTool.swift:187-211 | `build` with the corrected key: same nil rule and imports, and per definition the original output with only the key replaced |
| ToledoTool.CorrectedKeysDistinct | Sources/ToledoTool/ToledoTool.swift:197 | with the corrected key, the keys generated for any file are pairwise distinct |
| InjectableTool.ParseIdentifier | Sources/InjectableTool/InjectableTool.swift:22-26 | parses exactly `AsyncFailableDependency`, `FailableDependency` and `Dependency`, each to its own case |
| InjectableTool.DefinitionsFinder.constructor | Sources/InjectableTool/InjectableTool.swift:34-36 | not scanning, no pending name, no definitions |
| InjectableTool.DefinitionsFinder.Visit | Sources/InjectableTool/InjectableTool.swift:38-70 | requires the `assert(_isScanning)` on identifiers; the new state is `Step`; descends iff scanning after the token |
| InjectableTool.DefinitionsFinder.Parse | Sources/InjectableTool/InjectableTool.swift:72-75 | for a file no visit traps on, the state after all visits is `Run` |
| InjectableTool.StepRules | Sources/InjectableTool/InjectableTool.swift:39-63 | a keyword starts a header; `{` ends it and clears the name; the first identifier is the name; each marker appends one definition under it, with no deduplication |
| InjectableTool.RunPrefix | Sources/InjectableTool/InjectableTool.swift:45 | a walk that does not trap on a file does not trap on any prefix of it |
| InjectableTool.RunAppend | Sources/InjectableTool/InjectableTool.swift:72-75 | walking a concatenation is walking its parts in turn; a trap in the first part stops the walk |
| InjectableTool.RunPair | Sources/InjectableTool/InjectableTool.swift:38-70 | two tokens are two visits, each guarded by the assertion |
| InjectableTool.Markers | Sources/InjectableTool/InjectableTool.swift:51-57 | one definition per marker among a header's identifiers, all under the header's name |
| InjectableTool.MarkersSnoc | Sources/InjectableTool/InjectableTool.swift:51-57 | one more identifier adds its marker, if any, at the end |
| InjectableTool.ConformanceRun | Sources/InjectableTool/InjectableTool.swift:44-57 | a conformance inside a header appends its marker under the pending name |
| InjectableTool.HeaderRun | Sources/InjectableTool/InjectableTool.swift:40-57 | `kw Name: C1, …, Ck` leaves the scanner in the header with Name pending and every marker recorded in order |
| InjectableTool.DeclarationRun | Sources/InjectableTool/InjectableTool.swift:38-63 | a whole declaration appends its markers, in order, and leaves the header |
| InjectableTool.DeclarationAppended | Sources/InjectableTool/InjectableTool.swift:38-63 | a declaration after a stretch that ends outside a header appends its markers |
| InjectableTool.FileRun | Sources/InjectableTool/InjectableTool.swift:72-75 | a file of declarations never traps and yields every declaration's markers in file order |
| InjectableTool.FileDefinitions | Sources/InjectableTool/InjectableTool.swift:72-75 | the definitions found in a file of declarations are their markers in order |
| InjectableTool.AllMarkersAppend | Sources/InjectableTool/InjectableTool.swift:51-57 | the definitions of two stretches of declarations concatenate |
| InjectableTool.UniformMarkers | Tests/InjectableTests/InjectableToolTests.swift:16-20 | declarations conforming to `Dependency, AsyncFailableDependency, FailableDependency` yield those three definitions each, in order |
| InjectableTool.TestLineMarkers | Tests/InjectableTests/InjectableToolTests.swift:30-32 | one such declaration yields its three definitions in the order written |
| InjectableTool.TestBasic | Tests/InjectableTests/InjectableToolTests.swift:14-49 | the test's file shape (any six non-marker names) yields the fifteen expected definitions |
| InjectableTool.TestBasicAsWritten | Tests/InjectableTests/InjectableToolTests.swift:14-49 | the test's own file yields the fifteen definitions it expects, `Test0` to `Test4` |
| InjectableTool.StrayIdentifierTraps | Sources/InjectableTool/InjectableTool.swift:45 | a file starting with an identifier outside any header traps, so nothing is collected |

## Left out

- `main()` of both tools, with their command-line arguments and file I/O, is not modelled.
- `SyntaxParser.parse` and the SwiftSyntax tree walk are not modelled. A file reaches the scanners as its sequence of tokens in source order, and the token kinds the scanners do not name are one `Other` token. The result of `visit` is returned but has no effect here, because every token is a leaf.
- The formatting and text of the generated file are not modelled. The SwiftSyntaxBuilder declarations, `formatted()` and `write` are reduced to the names and types the builder derives for each definition.
- Injectable's `ExtensionBuilder` is not modelled. It emits fixed scaffolding for a type named `Test` and does not read the definitions.
- The build plugins and `Package.swift` are not modelled.
- The container's heterogeneous storage is not modelled. It holds values of type `Any` and casts them back with `as? K.V`, and a failed cast falls back to the default. In the model every key of one container shares the value type `V`.
- Injectable's unused `static var all` is not modelled.
- Calls from several threads at once to Injectable's `_DependencyProvider` and `_FailableDependencyProvider` are not modelled. These are plain classes with no actor isolation, so such calls can race on `_value`; the model assumes they are serialized.
- The containers of both libraries are Swift structs, copied on assignment. The model makes each a class updated in place, so copies are not modelled; each container is held in one place.
- Real task scheduling, priorities and cancellation are not modelled. A task's outcome is fixed when it is spawned. A thrown error is an error code.
- Side effects of factories are reduced to the `seed` parameter, which stands for whatever a run depends on besides the container (for example UUID generation in the test fixtures).
- ToledoTool.LowercaseChar: lowercases ASCII capitals only. Swift's `lowercased()` follows Unicode case mapping, works on the first grapheme cluster, and can change the string's length.
- InjectableTool.DefinitionsFinder.Visit: models a debug build, where `assert(_isScanning)` traps, as a precondition; `Run` yields `None`. A release build skips the assertion and would go on recording.
- ToledoTool.DeclarationScanned: is proved only for declarations of the shape `kw Name: C1, …, Cn { }` with simple names and an empty body. Other shapes (dotted names, generic clauses, members, `final` modifiers) are covered by `VisitStep`, `Walk` and the general lemmas only.
- Toledo.AsyncThrowingDependencyProvider.Finish: follows the source as written. The corrected resume (`AsyncFinishChecked`) is a specification function beside it and is not used by the class.
- The Injectable scanner's test creates a `DefinitionsProvider`. The scanner class in the source is `DefinitionsFinder`, which is what is modelled.

## Findings

| source | as written | input that shows it | evidently intended | confidence | as-written member | corrected member |
|---|---|---|---|---|---|---|
| Sources/Toledo/Dependency.swift:46-54 | after the `await`, `_value = value` stores the awaited task's value even if `replaceProvider` ran during the `await` | caller 1 spawns a task running the old factory (yields 1); `replaceProvider` installs an override that yields 2; caller 1 resumes and caches 1; the next `getValue` returns 1 and the override never runs | after `replaceProvider`, the next `getValue` uses the new provider | not executed; medium | Toledo.ResumeAfterReplaceKeepsOldValue, Toledo.StaleValueExample | Toledo.AsyncFinishChecked, Toledo.ReplaceIsolatesOldTasks |
| Sources/ToledoTool/ToledoTool.swift:197 | the key struct is named `name + rawValue + "ProviderKey"` | `struct A: ThrowingDependency {}` and `struct AThrowing: Dependency {}` in one file both get `AThrowingDependencyProviderKey`, so the generated file declares that struct twice | distinct definitions get distinct key structs | not executed; low | ToledoTool.KeyNameCollision | ToledoTool.CorrectedKeyName, ToledoTool.CorrectedKeysDistinct |
