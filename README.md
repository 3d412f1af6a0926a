# SimpleMock expectation engine in Dafny

SimpleMock is a Swift mocking library. A mock records *expectations*:
sequences of calls, each bound to a *resolver* that produces the value the
mocked call returns. When the code under test calls the mock, the mock
*resolves* the call against those expectations, and at the end `verify()`
checks that what was expected and what happened match. The engine keeps
three collections:

- `methodsExpected`, the declared call sequences in declaration order;
- `methodsResolvers`, a map from a call sequence to its resolver;
- `methodsRegistered`, the call sequences actually observed.

The repository holds three copies of this engine:

- the private `MockLogic` behind the base class `Mock<Methods>`
  (Sources/SimpleMock/Mock.swift);
- the extension of the `Mock` protocol, working on the conformer's own
  stored properties (Sources/SimpleMock/SimpleMock.swift);
- the actor `ActorMockLogic` (Sources/SimpleMock/ActorMock.swift), whose
  `verify` scans with the array extension `ensureAllElementsAreContainedIn`
  (Sources/SimpleMock/Array+ensureAllElementsAreContainedIn.swift).

The model is one engine with a `Variant` (`ClassMock`, `ProtocolMock`,
`ActorMock`) that records where the copies differ:

- which error enum `expect` and `resolve` throw (`MockError`, or `ActorMockError`);
- whether a resolver may throw (only the actor's are `async throws`);
- whether `verify` clears the engine (only the actor's does).

Files:

- `wrappers.dfy` (module `Wrappers`): `Option`, `Result` and `Outcome`,
  which stand for Swift optionals and `throws`.
- `containment.dfy` (module `Containment`): the array extension, as a
  `for` loop proved against the recursive function `FirstNotContained`.
- `mock_logic.dfy` (module `MockLogic`): the state value, and one pure
  function per operation (`ExpectNext`/`ExpectResult`,
  `ResolveNext`/`ResolveResult`, `VerifyOutcome`). Beside them:
  - the lemmas about those functions;
  - the invariant `Consistent`, which every operation preserves.
- `engine.dfy` (module `Engine`):
  - the class `ExpectationEngine`, whose fields `expected`, `resolvers`
    and `registered` are updated in place by `Expect`, `Resolve` and
    `Verify`. Each method states its new state and its result through
    the `MockLogic` functions.
  - the base class `Mock`, which forwards to its private engine.
- `scenarios.dfy` (module `Scenarios`): the repository's test cases,
  replayed against the engine classes through the `Service` interface
  (`save(id, value)`, `load(id)`). Each method's postcondition states
  what the test asserts. The `…Trace` lemmas evaluate the same calls on
  the specification functions.

Resolvers are modelled by the one outcome their closure produces:
`Returns(tag, value)` or `Throws(error)`. The runtime cast `as? R` becomes
a comparison of `tag` with the type tag the caller asks for.

Behaviour of the code worth noting, which the model follows and proves:

- Chains longer than two calls work. `resolve` looks up the *whole* last
  registered sequence extended by the new call, and replaces that entry
  on success, so a chain declared with repeated `after:` arguments is
  followed to its end (`Scenarios.ThreeCallChain`).
- Only the actor's `verify` clears the three collections, and it does so
  on every exit path (ActorMock.swift:186-191). The synchronous copies
  leave them unchanged.
- `verify` reports a missing expected sequence before an unexpected
  registered one. The order is fixed by the code.
- Expecting the same first call twice appends `[call]` twice in
  `methodsExpected`. It binds one resolver, because map assignment
  overwrites.
- In `testExpectationsWithUnfollowedSequence`
  (Tests/SimpleMockTests/Mock/ExtendedSimpleMockTests.swift:39-55), the
  second `load` throws `resolverEmpty`. So the test passes through its
  `catch` branch, not its happy path
  (`Scenarios.ExpectationsWithUnfollowedSequence`).

## Model

| member | source | states |
|---|---|---|
| Containment.FirstNotContained | Sources/SimpleMock/Array+ensureAllElementsAreContainedIn.swift:11-17 | `None` exactly when every element of `xs` occurs in `other`; otherwise the element at the first position, in order, that `other` lacks |
| Containment.EnsureAllElementsAreContainedIn | Sources/SimpleMock/Array+ensureAllElementsAreContainedIn.swift:11-17 | the scan returns normally iff all elements are contained (so always for an empty array); otherwise it throws `errorGenerator(e)` for the first missing element `e`, which agrees with `FirstNotContained` |
| Containment.FirstNotContainedDependsOnMembership | Sources/SimpleMock/Array+ensureAllElementsAreContainedIn.swift:13 | the element reported depends only on which values the other array holds, not on their order or duplicates |
| MockLogic.ExpectNext | Sources/SimpleMock/Mock.swift:136-154 | without `after`: appends `[call]` and binds the resolver to `[call]`. With an `after` equal to the last call of the last sequence: extends that sequence by `call`, keeps the count and every earlier sequence, binds the resolver to the extended key and keeps the shorter key's binding. Otherwise nothing changes. The registered log is never touched (the same algorithm is at SimpleMock.swift:113-131 and ActorMock.swift:104-122) |
| MockLogic.ExpectExtends | Sources/SimpleMock/Mock.swift:143-149 | `expect` never removes a declared sequence and only lengthens one at its end |
| MockLogic.ExpectResult | Sources/SimpleMock/SimpleMock.swift:120-131 | `expect` throws iff an `after` is given and there is no sequence, or the last one is empty, or its last call differs from `after`; the error is `couldNotAddInSequence(call, after)` in the variant's error enum |
| MockLogic.ResultOf | Sources/SimpleMock/Mock.swift:159-172 | `result(sequence:)` succeeds iff a resolver is bound to the key and produces a value of the requested type, returning that value. A missing key gives `resolverEmpty`, a type mismatch `invalidCastType`, and a throwing resolver its own error |
| MockLogic.ResolveNext | Sources/SimpleMock/Mock.swift:178-210 | `resolve` leaves `methodsExpected` alone. On a continuation of the last registered sequence, it replaces that entry by the extended one and removes that resolver. Otherwise it appends `[call]` and removes the resolver of `[call]` only if that lookup succeeds |
| MockLogic.ResolveResult | Sources/SimpleMock/ActorMock.swift:146-178 | a continuation returns the chained resolver's value. Any failure of the chained lookup is swallowed (`try?`), and the caller then gets exactly the outcome of looking up `[call]` |
| MockLogic.ResolveConsumesOnlyWhatItUses | Sources/SimpleMock/Mock.swift:178-210 | a successful `resolve` removes exactly the one resolver whose value it returned; a failing one removes no resolver and still records `[call]` last |
| MockLogic.ResolveKeepsRegisteredLog | Sources/SimpleMock/Mock.swift:182-207 | the registered log grows by one entry, or by none on a continuation, and every entry but the last is kept |
| MockLogic.VerifyOutcome | Sources/SimpleMock/Mock.swift:215-235 | `verify` succeeds (with `true`) iff every expected sequence was registered and every registered one was expected. Otherwise it throws `missingExpected` of the first expected sequence never registered, and only if there is none, `unexpectedMethod` of the first registered sequence never expected; always as `MockError` |
| MockLogic.VerifyDependsOnlyOnMembership | Sources/SimpleMock/ActorMock.swift:193-194 | whether `verify` succeeds depends only on which sequences occur in the two lists, not on order or multiplicity, so declaration order is irrelevant |
| MockLogic.EmptyIsConsistent | Sources/SimpleMock/Mock.swift:122-124 | the initial, empty engine satisfies the engine invariant |
| MockLogic.ExpectPreservesConsistency | Sources/SimpleMock/Mock.swift:132-157 | `expect` keeps the invariant: sequences are nonempty, every resolver key is a prefix of a declared sequence, every registered chain lies along a declared sequence, and a synchronous engine holds no throwing resolver |
| MockLogic.ResolvePreservesConsistency | Sources/SimpleMock/Mock.swift:178-210 | `resolve` keeps the same invariant; in particular a registered entry longer than one call only arises along a chain built by `expect(…, after:)` |
| MockLogic.SynchronousResolveThrowsOnlyMockErrors | Sources/SimpleMock/SimpleMock.swift:136-149 | with non-throwing resolvers (`() -> Any`), a synchronous `resolve` can only fail with `resolverEmpty` or `invalidCastType` |
| Engine.ExpectationEngine.constructor | Sources/SimpleMock/Mock.swift:122-124 | a new engine has empty collections and the given variant, and satisfies the invariant |
| Engine.ExpectationEngine.Expect | Sources/SimpleMock/ActorMock.swift:100-125 | the in-place `expect`: the new collections are `ExpectNext` of the old ones, the thrown error is `ExpectResult`, and the invariant holds |
| Engine.ExpectationEngine.Resolve | Sources/SimpleMock/ActorMock.swift:146-178 | the in-place `resolve`: the new collections are `ResolveNext` of the old ones, the outcome is `ResolveResult`, and the invariant holds |
| Engine.ExpectationEngine.Verify | Sources/SimpleMock/ActorMock.swift:183-197 | the outcome is `VerifyOutcome` of the collections before the call. The actor's two containment scans and deferred clearing leave an empty engine on every path; the synchronous copies leave the state unchanged |
| Engine.Mock.constructor | Sources/SimpleMock/Mock.swift:93-100 | a new base-class mock owns a fresh, empty class-variant engine |
| Engine.Mock.Expect | Sources/SimpleMock/Mock.swift:102-108 | forwards to the private engine, with the same new state and outcome |
| Engine.Mock.Resolve | Sources/SimpleMock/Mock.swift:110-112 | forwards to the private engine, with the same new state and outcome |
| Engine.Mock.Verify | Sources/SimpleMock/Mock.swift:114-117 | forwards to the private engine: the outcome is `VerifyOutcome` and the state is unchanged |
| Scenarios.ExpectLoadSaveLoad | Tests/SimpleMockTests/SimpleMockTests.swift:34-37 | the shared setup `load`, `save(10)`, `load after save(10)` leaves any variant's engine in the state `LoadSaveLoad()` |
| Scenarios.LoadSaveLoadDeclares | Tests/SimpleMockTests/SimpleMockTests.swift:34-37 | that setup declares `[load]` and `[save(10), load]`, with resolvers for `[load]`, `[save(10)]` and `[save(10), load]` |
| Scenarios.EmptyExpect | Tests/SimpleMockTests/SimpleMockTests.swift:9-21 | a `load` with nothing expected throws `resolverEmpty`, and `verify` then throws `unexpectedMethod([load])` |
| Scenarios.OneMockExpectation | Tests/SimpleMockTests/SimpleMockTests.swift:23-30 | a single expectation of `load` returning 0 yields 0, and `verify` passes |
| Scenarios.SequenceMockExpectationTrace | Tests/SimpleMockTests/SimpleMockTests.swift:32-44 | on the specification functions, after the shared setup, `load`, `save(10)`, `load` give 0, (), 10; the log is `[[load], [save(10), load]]` and `verify` passes |
| Scenarios.SequenceMockExpectation | Tests/SimpleMockTests/SimpleMockTests.swift:32-44 | the same on the engine object |
| Scenarios.SequenceMockExpectationWithErrorTrace | Tests/SimpleMockTests/SimpleMockTests.swift:46-58 | on the specification functions, `save(40)` instead breaks the chain: it and the second `load` throw `resolverEmpty`, and `verify` reports `[save(10), load]` missing |
| Scenarios.SequenceMockExpectationWithError | Tests/SimpleMockTests/SimpleMockTests.swift:46-58 | the same on the engine object |
| Scenarios.MockExpectationWithCastTypeError | Tests/SimpleMockTests/SimpleMockTests.swift:60-70 | a resolver producing a `Bool` for `load` throws `invalidCastType`; the call is still registered, so `verify` passes |
| Scenarios.ExpectationAfterUnknownMethod | Tests/SimpleMockTests/SimpleMockTests.swift:72-82 | chaining after `save(10)` when the last sequence ends with `save(1)` throws `couldNotAddInSequence(load, save(10))` and leaves the engine unchanged |
| Scenarios.ExpectationSetButNotCalled | Tests/SimpleMockTests/Mock/ExtendedSimpleMockTests.swift:22-25 | through the base class, an expectation never called makes `verify` throw `missingExpected([load])` |
| Scenarios.MultipleExpectationsTrace | Tests/SimpleMockTests/Mock/ExtendedSimpleMockTests.swift:27-37 | on the specification functions, three one-call `save` expectations with different arguments are each resolved once and `verify` passes |
| Scenarios.MultipleExpectationsForSameMethodDifferentArgs | Tests/SimpleMockTests/Mock/ExtendedSimpleMockTests.swift:27-37 | the same through the base class `Mock` |
| Scenarios.UnfollowedSequenceTrace | Tests/SimpleMockTests/Mock/ExtendedSimpleMockTests.swift:39-55 | for every variant, after the shared setup, `load` returns 0 and a second `load` throws `resolverEmpty` in that variant's error enum |
| Scenarios.ExpectationsWithUnfollowedSequence | Tests/SimpleMockTests/Mock/ExtendedSimpleMockTests.swift:39-55 | through the base class, the second `load` throws `MockError.resolverEmpty`, the error the test's `catch` expects |
| Scenarios.UnfollowedSequenceInConcurrency | Tests/SimpleMockTests/ActorMock/ExtendedActorMockTests.swift:55-71 | on the actor, the second `load` throws `ActorMockError.resolverEmpty` |
| Scenarios.ConcurrentExpectationsTwoMethodsTrace | Tests/SimpleMockTests/ActorMock/ExtendedActorMockTests.swift:22-35 | on the specification functions, `load` and `save(v)` declared in either order are each resolved once and `verify` passes |
| Scenarios.ConcurrentExpectationsDifferentMethods | Tests/SimpleMockTests/ActorMock/ActorServiceMockTests.swift:52-67 | on the actor, for either declaration order and any `v` (the two tests use 10 and 20; the other is ExtendedActorMockTests.swift:22-35), `load` returns 10, `save(v)` succeeds and `verify` passes |
| Scenarios.SavesInOrderDeclares | Tests/SimpleMockTests/ActorMock/ExtendedActorMockTests.swift:38-48 | whatever order the three `save` expectations are declared in, the same three one-call resolvers are bound |
| Scenarios.ConcurrentExpectationsTrace | Tests/SimpleMockTests/ActorMock/ExtendedActorMockTests.swift:37-53 | on the specification functions, for every declaration order of `save(10)`, `save(20)`, `save(30)`, the calls 10, 20, 30 each succeed and `verify` passes |
| Scenarios.SavesInAnyOrderVerify | Tests/SimpleMockTests/ActorMock/ExtendedActorMockTests.swift:52 | declared in any order, the three sequences match the log 10, 20, 30 |
| Scenarios.ConcurrentExpectationsSameMethodDifferentArgs | Tests/SimpleMockTests/ActorMock/ExtendedActorMockTests.swift:37-53 | the same on the actor object |
| Scenarios.ConcurrentInvocationsTrace | Tests/SimpleMockTests/ActorMock/ActorServiceMockTests.swift:21-50 | on the specification functions, `load` and `save(20)` invoked in either order both succeed and `verify` passes |
| Scenarios.ConcurrentInvocations | Tests/SimpleMockTests/ActorMock/ActorServiceMockTests.swift:21-50 | the same on the actor object: `load` returns 10, `save(20)` succeeds, `verify` passes |
| Scenarios.ActorVerifyResets | Sources/SimpleMock/ActorMock.swift:183-197 | the actor's failing `verify` still clears the engine: the next cycle's `load` throws `ActorMockError.resolverEmpty`, the next `verify` reports it as `unexpectedMethod`, and the engine ends empty |
| Scenarios.ChainErrorPrefixDeclares | Sources/SimpleMock/ActorMock.swift:111-117 | chaining `save` after `load` lengthens `[load]` to `[load, save]` and keeps the resolver of `[load]` |
| Scenarios.ChainErrorLoadStep | Sources/SimpleMock/ActorMock.swift:146-178 | the first `load` is no continuation and takes the resolver of `[load]` |
| Scenarios.ActorChainErrorFallsBackTrace | Sources/SimpleMock/ActorMock.swift:146-178 | on the specification functions, an error thrown by the chained resolver of `[load, save]` is swallowed and `save` falls back to `[save]`; `verify` then reports the chain missing |
| Scenarios.ActorChainErrorFallsBack | Sources/SimpleMock/ActorMock.swift:146-178 | the same on the actor object |
| Scenarios.ThreeCallSetupDeclares | Sources/SimpleMock/SimpleMock.swift:113-131 | chaining `save(5)` after `load` and then `load` after `save(5)` declares the one three-call sequence, with a resolver for each of its prefixes |
| Scenarios.ThreeCallLoadStep | Sources/SimpleMock/SimpleMock.swift:155-187 | the first `load` takes the resolver of `[load]` |
| Scenarios.SaveContinuesLoad | Sources/SimpleMock/SimpleMock.swift:177-184 | from any state that has registered `[load]` and binds `[load, save(5)]`, `save(5)` continues the entry to `[load, save(5)]` |
| Scenarios.ThreeCallChainPrefix | Sources/SimpleMock/SimpleMock.swift:155-187 | the first two calls walk `[load]`, then `[load, save(5)]` |
| Scenarios.LoadCompletesChain | Sources/SimpleMock/SimpleMock.swift:177-184 | from any state that has registered `[load, save(5)]` and binds the whole chain, `load` completes it, and `verify` passes |
| Scenarios.ThreeCallChainTrace | Sources/SimpleMock/SimpleMock.swift:155-187 | on the specification functions, the three calls return 1, (), 2, leave the log `[[load, save(5), load]]`, and `verify` passes |
| Scenarios.ThreeCallChain | Sources/SimpleMock/SimpleMock.swift:155-187 | the same on the engine object: a chain of three declared calls is followed to its end |

## Left out

- Interleaving inside the actor. `ActorMockLogic.resolve` (ActorMock.swift:146-178) awaits the stored `async` resolver through `result(sequence:)` (ActorMock.swift:134, 155, 161). The actor is reentrant at every `await`, so another `expect`, `resolve` or `verify` can run between `resolve` reading `methodsRegistered.last` (ActorMock.swift:150) and its updates (ActorMock.swift:159-175). The model is a sequential class. It covers only runs in which no other call enters the actor while a resolver runs. Runs outside it are not captured: two concurrent `load`s can both get the value of one `[load]` resolver; a concurrent call's `[x]` can be the entry that `removeLast()` (ActorMock.swift:172) drops. The `async`/`await` plumbing and task groups are also left out. A test's concurrent calls become a parameter that picks the order in which they run. In `ConcurrentInvocations` and the `ConcurrentExpectations…` scenarios, every interleaving of those particular calls gives the same result.
- The process-wide singleton `ActorMockLogic.instance` (ActorMock.swift:52) and the protocol extension that forwards every `ActorMock` conformer into it (ActorMock.swift:25-48). In the source, all actor mocks share one engine. Here each engine object has its own state. Each actor scenario therefore assumes that the shared engine is empty when the test starts. A test that exits without calling `verify` leaves its state behind: `testUnfollowedSequenceInConcurrency` (ExtendedActorMockTests.swift:61-69) exits through its `catch`.
- Outside writes to the collections. The engine methods require the invariant `Consistent`, so the engine object assumes that the three collections change only through `expect`, `resolve` and `verify`. A protocol conformer owns them as `{ get set }` properties (SimpleMock.swift:73-81) and can preset or overwrite them, for example with a two-call registered entry that no declared chain produced. The pure functions in `MockLogic` have no such precondition and describe the behaviour on any content.
- `AnyHashable` type erasure of calls. Calls are a generic equality type.
- Closure bodies of resolvers. Each resolver is its one fixed outcome. Side effects are not captured, and neither is a resolver returning different values when it is run more than once: a chained lookup whose value fails the cast has still run the closure.
- The dynamic cast `as? R`. It is a comparison of type tags, with no subtyping or bridging.
- The fluent `Self` return and `@discardableResult` of the source's `expect`/`verify`. The model returns `Outcome` or `Result` instead.
- The two `MockError` enums (Mock.swift:244-256 and SimpleMock.swift:86-98) and `ActorMockError` (ActorMock.swift:77-89). Their cases are one datatype, and a wrapper records which enum carries them.
- The protocol variant's storage requirements (SimpleMock.swift:63-82). They are the same three collections, held by the engine object.
- The test adapters `ServiceMock`, `ActorServiceMock` and the `Service` protocol, beyond the call datatype they define. They only forward into `resolve`.
- Package.swift, the build manifest, is not part of this model.
- Swift's runtime traps (e.g. an `as!` in a test) and XCTest's expectation counting in `testConcurrentInvocations` are not part of this model.
