/**
 * The test scenarios of the repository, replayed against the engines
 * through the `Service` interface (`save(id, value)` and `load(id)`). Each
 * method is a client of the engine contracts alone, and its postcondition
 * states what the corresponding test asserts. Where a scenario takes more
 * than a few calls, a `…Trace` lemma first evaluates the same calls on the
 * specification functions, so that the method only has to line its calls up
 * with that evaluation.
 */
module Scenarios {
  import opened Wrappers
  import opened Containment
  import opened MockLogic
  import opened Engine

  /** The `Methods` enum of the service mocks. */
  datatype ServiceCall = Save(id: string, value: int) | Load(id: string)

  /** The Swift types a resolver value can have here, and the values themselves. */
  datatype SwiftType = IntType | VoidType | BoolType
  datatype Payload = IntValue(i: int) | VoidValue | BoolValue(b: bool)

  type Answer = Result<Payload, Thrown<ServiceCall, string>>
  type Service = ExpectationEngine<ServiceCall, SwiftType, Payload, string>
  type ClassServiceMock = Mock<ServiceCall, SwiftType, Payload, string>

  const Id: string := "Test ID"

  function IntResolver(i: int): Resolver<SwiftType, Payload, string> { Returns(IntType, IntValue(i)) }
  const VoidResolver: Resolver<SwiftType, Payload, string> := Returns(VoidType, VoidValue)

  /** The expectations after the shared setup `load`, `save(10)`, `load after save(10)`. */
  function LoadSaveLoad(): State<ServiceCall, SwiftType, Payload, string> {
    var s1 := ExpectNext(Empty(), Load(Id), None, IntResolver(0));
    var s2 := ExpectNext(s1, Save(Id, 10), None, VoidResolver);
    ExpectNext(s2, Load(Id), Some(Save(Id, 10)), IntResolver(10))
  }

  /** The setup shared by the sequence tests, on a fresh engine of any variant. */
  method ExpectLoadSaveLoad(mock: Service)
    requires mock.Valid() && mock.Snapshot() == Empty()
    modifies mock
    ensures mock.Valid()
    ensures mock.Snapshot() == LoadSaveLoad()
  {
    var e1 := mock.Expect(Load(Id), None, IntResolver(0));
    var e2 := mock.Expect(Save(Id, 10), None, VoidResolver);
    var e3 := mock.Expect(Load(Id), Some(Save(Id, 10)), IntResolver(10));
  }

  /** The setup declares the one-call sequence `[load]` and the chain `[save(10), load]`. */
  lemma LoadSaveLoadDeclares()
    ensures LoadSaveLoad().expected == [[Load(Id)], [Save(Id, 10), Load(Id)]]
    ensures LoadSaveLoad().resolvers
         == map[[Load(Id)] := IntResolver(0), [Save(Id, 10)] := VoidResolver, [Save(Id, 10), Load(Id)] := IntResolver(10)]
    ensures LoadSaveLoad().registered == []
  {
    var s1 := ExpectNext(Empty(), Load(Id), None, IntResolver(0));
    assert s1.expected == [[Load(Id)]];
    var s2 := ExpectNext(s1, Save(Id, 10), None, VoidResolver);
    assert s2.expected == [[Load(Id)], [Save(Id, 10)]];
    assert [Save(Id, 10)] + [Load(Id)] == [Save(Id, 10), Load(Id)];
  }

  /** A `load` before any expectation throws `resolverEmpty`, and `verify` then reports it as unexpected. */
  method EmptyExpect() returns (loaded: Answer, verified: Result<bool, Thrown<ServiceCall, string>>)
    ensures loaded == Failure(AsMockError(ResolverEmpty))
    ensures verified == Failure(AsMockError(UnexpectedMethod([Load(Id)])))
  {
    var mock: Service := new ExpectationEngine(ProtocolMock);
    loaded := mock.Resolve(Load(Id), IntType);
    verified := mock.Verify();
  }

  /** One expectation of `load` returning 0: the call returns 0 and `verify` passes. */
  method OneMockExpectation() returns (loaded: Answer, verified: Result<bool, Thrown<ServiceCall, string>>)
    ensures loaded == Success(IntValue(0))
    ensures verified == Success(true)
  {
    var mock: Service := new ExpectationEngine(ProtocolMock);
    var e := mock.Expect(Load(Id), None, IntResolver(0));
    loaded := mock.Resolve(Load(Id), IntType);
    verified := mock.Verify();
  }

  /** What the calls of `SequenceMockExpectation` observe, computed on the specification. */
  lemma SequenceMockExpectationTrace()
    ensures var s0 := LoadSaveLoad();
            var s1 := ResolveNext(s0, Load(Id), IntType);
            var s2 := ResolveNext(s1, Save(Id, 10), VoidType);
            var s3 := ResolveNext(s2, Load(Id), IntType);
            && ResolveResult(s0, Load(Id), IntType, ProtocolMock) == Success(IntValue(0))
            && ResolveResult(s1, Save(Id, 10), VoidType, ProtocolMock) == Success(VoidValue)
            && ResolveResult(s2, Load(Id), IntType, ProtocolMock) == Success(IntValue(10))
            && s3.registered == [[Load(Id)], [Save(Id, 10), Load(Id)]]
            && VerifyOutcome<ServiceCall, string>(s3.expected, s3.registered) == Success(true)
  {
    LoadSaveLoadDeclares();
    var s0 := LoadSaveLoad();
    var s1 := ResolveNext(s0, Load(Id), IntType);
    assert s1.registered == [[Load(Id)]];
    assert s1.resolvers.Keys == {[Save(Id, 10)], [Save(Id, 10), Load(Id)]};
    var s2 := ResolveNext(s1, Save(Id, 10), VoidType);
    assert s2.registered == [[Load(Id)], [Save(Id, 10)]];
    assert s2.resolvers.Keys == {[Save(Id, 10), Load(Id)]};
    assert [Save(Id, 10)] + [Load(Id)] == [Save(Id, 10), Load(Id)];
  }

  /** `load`, `save`, `load after save`: the calls in that order return 0, (), 10 and `verify` passes. */
  method SequenceMockExpectation()
    returns (first: Answer, second: Answer, third: Answer,
             verified: Result<bool, Thrown<ServiceCall, string>>, log: seq<seq<ServiceCall>>)
    ensures first == Success(IntValue(0))
    ensures second == Success(VoidValue)
    ensures third == Success(IntValue(10))
    ensures verified == Success(true)
    ensures log == [[Load(Id)], [Save(Id, 10), Load(Id)]]
  {
    SequenceMockExpectationTrace();
    var mock: Service := new ExpectationEngine(ProtocolMock);
    ExpectLoadSaveLoad(mock);
    first := mock.Resolve(Load(Id), IntType);
    second := mock.Resolve(Save(Id, 10), VoidType);
    third := mock.Resolve(Load(Id), IntType);
    log := mock.registered;
    verified := mock.Verify();
  }

  /** What the calls of `SequenceMockExpectationWithError` observe. */
  lemma SequenceMockExpectationWithErrorTrace()
    ensures var s0 := LoadSaveLoad();
            var s1 := ResolveNext(s0, Load(Id), IntType);
            var s2 := ResolveNext(s1, Save(Id, 40), VoidType);
            var s3 := ResolveNext(s2, Load(Id), IntType);
            && ResolveResult(s0, Load(Id), IntType, ProtocolMock) == Success(IntValue(0))
            && ResolveResult(s1, Save(Id, 40), VoidType, ProtocolMock) == Failure(AsMockError(ResolverEmpty))
            && ResolveResult(s2, Load(Id), IntType, ProtocolMock) == Failure(AsMockError(ResolverEmpty))
            && VerifyOutcome<ServiceCall, string>(s3.expected, s3.registered)
               == Failure(AsMockError(MissingExpected([Save(Id, 10), Load(Id)])))
  {
    LoadSaveLoadDeclares();
    var s0 := LoadSaveLoad();
    var s1 := ResolveNext(s0, Load(Id), IntType);
    assert s1.registered == [[Load(Id)]];
    assert s1.resolvers.Keys == {[Save(Id, 10)], [Save(Id, 10), Load(Id)]};
    var s2 := ResolveNext(s1, Save(Id, 40), VoidType);
    assert s2.registered == [[Load(Id)], [Save(Id, 40)]];
    assert s2.resolvers == s1.resolvers;
    assert ([Save(Id, 40)] + [Load(Id)])[0] == Save(Id, 40);
    var s3 := ResolveNext(s2, Load(Id), IntType);
    assert s3.registered == [[Load(Id)], [Save(Id, 40)], [Load(Id)]];
    assert [Save(Id, 10), Load(Id)] !in s3.registered;
  }

  /** Same setup, but `save(40)` breaks the chain: it and the second `load` throw, and so does `verify`. */
  method SequenceMockExpectationWithError()
    returns (first: Answer, second: Answer, third: Answer, verified: Result<bool, Thrown<ServiceCall, string>>)
    ensures first == Success(IntValue(0))
    ensures second == Failure(AsMockError(ResolverEmpty))
    ensures third == Failure(AsMockError(ResolverEmpty))
    ensures verified == Failure(AsMockError(MissingExpected([Save(Id, 10), Load(Id)])))
  {
    SequenceMockExpectationWithErrorTrace();
    var mock: Service := new ExpectationEngine(ProtocolMock);
    ExpectLoadSaveLoad(mock);
    first := mock.Resolve(Load(Id), IntType);
    second := mock.Resolve(Save(Id, 40), VoidType);
    third := mock.Resolve(Load(Id), IntType);
    verified := mock.Verify();
  }

  /** A resolver returning `true` to `load` throws `invalidCastType`, yet the call is registered and `verify` passes. */
  method MockExpectationWithCastTypeError()
    returns (loaded: Answer, verified: Result<bool, Thrown<ServiceCall, string>>)
    ensures loaded == Failure(AsMockError(InvalidCastType))
    ensures verified == Success(true)
  {
    var mock: Service := new ExpectationEngine(ProtocolMock);
    var e := mock.Expect(Load(Id), None, Returns(BoolType, BoolValue(true)));
    loaded := mock.Resolve(Load(Id), IntType);
    verified := mock.Verify();
  }

  /** Chaining after `save(10)` when the last declared sequence ends with `save(1)` throws and changes nothing. */
  method ExpectationAfterUnknownMethod()
    returns (chained: Outcome<Thrown<ServiceCall, string>>, stateKept: bool)
    ensures chained == Fail(AsMockError(CouldNotAddInSequence(Load(Id), Save(Id, 10))))
    ensures stateKept
  {
    var mock: Service := new ExpectationEngine(ProtocolMock);
    var e := mock.Expect(Save(Id, 1), None, IntResolver(1));
    var before := mock.Snapshot();
    chained := mock.Expect(Load(Id), Some(Save(Id, 10)), IntResolver(1));
    stateKept := mock.Snapshot() == before;
  }

  /** Through the `Mock<Methods>` base class: an expectation that is never called makes `verify` throw. */
  method ExpectationSetButNotCalled() returns (verified: Result<bool, Thrown<ServiceCall, string>>)
    ensures verified == Failure(AsMockError(MissingExpected([Load(Id)])))
  {
    var mock: ClassServiceMock := new Mock();
    var e := mock.Expect(Load(Id), None, IntResolver(10));
    verified := mock.Verify();
  }

  /** Three one-call expectations of `save` with different arguments, then the three calls. */
  lemma MultipleExpectationsTrace()
    ensures var s1 := ExpectNext(Empty(), Save(Id, 10), None, VoidResolver);
            var s2 := ExpectNext(s1, Save(Id, 20), None, VoidResolver);
            var s3 := ExpectNext(s2, Save(Id, 30), None, VoidResolver);
            var s4 := ResolveNext(s3, Save(Id, 10), VoidType);
            var s5 := ResolveNext(s4, Save(Id, 20), VoidType);
            var s6 := ResolveNext(s5, Save(Id, 30), VoidType);
            && ResolveResult(s3, Save(Id, 10), VoidType, ClassMock) == Success(VoidValue)
            && ResolveResult(s4, Save(Id, 20), VoidType, ClassMock) == Success(VoidValue)
            && ResolveResult(s5, Save(Id, 30), VoidType, ClassMock) == Success(VoidValue)
            && VerifyOutcome<ServiceCall, string>(s6.expected, s6.registered) == Success(true)
  {
    var s1 := ExpectNext(Empty(), Save(Id, 10), None, VoidResolver);
    var s2 := ExpectNext(s1, Save(Id, 20), None, VoidResolver);
    var s3 := ExpectNext(s2, Save(Id, 30), None, VoidResolver);
    assert s3.expected == [[Save(Id, 10)], [Save(Id, 20)], [Save(Id, 30)]];
    assert s3.resolvers.Keys == {[Save(Id, 10)], [Save(Id, 20)], [Save(Id, 30)]};
    assert !Continues(s3, Save(Id, 10), VoidType);
    var s4 := ResolveNext(s3, Save(Id, 10), VoidType);
    assert s4.registered == [[Save(Id, 10)]];
    assert s4.resolvers.Keys == {[Save(Id, 20)], [Save(Id, 30)]};
    assert |[Save(Id, 10)] + [Save(Id, 20)]| == 2;
    assert !Continues(s4, Save(Id, 20), VoidType);
    var s5 := ResolveNext(s4, Save(Id, 20), VoidType);
    assert s5.registered == [[Save(Id, 10)], [Save(Id, 20)]];
    assert s5.resolvers.Keys == {[Save(Id, 30)]};
    assert |[Save(Id, 20)] + [Save(Id, 30)]| == 2;
    assert !Continues(s5, Save(Id, 30), VoidType);
    var s6 := ResolveNext(s5, Save(Id, 30), VoidType);
    assert s6.registered == [[Save(Id, 10)], [Save(Id, 20)], [Save(Id, 30)]];
  }

  /** Through the base class: three independent `save` expectations are each resolved once. */
  method MultipleExpectationsForSameMethodDifferentArgs()
    returns (saved: seq<Answer>, verified: Result<bool, Thrown<ServiceCall, string>>)
    ensures saved == [Success(VoidValue), Success(VoidValue), Success(VoidValue)]
    ensures verified == Success(true)
  {
    MultipleExpectationsTrace();
    var mock: ClassServiceMock := new Mock();
    var e1 := mock.Expect(Save(Id, 10), None, VoidResolver);
    var e2 := mock.Expect(Save(Id, 20), None, VoidResolver);
    var e3 := mock.Expect(Save(Id, 30), None, VoidResolver);
    var s1 := mock.Resolve(Save(Id, 10), VoidType);
    var s2 := mock.Resolve(Save(Id, 20), VoidType);
    var s3 := mock.Resolve(Save(Id, 30), VoidType);
    saved := [s1, s2, s3];
    verified := mock.Verify();
  }

  /** After the shared setup, `load` twice: the second `load` is no continuation and its resolver is spent. */
  lemma UnfollowedSequenceTrace(variant: Variant)
    ensures var s0 := LoadSaveLoad();
            var s1 := ResolveNext(s0, Load(Id), IntType);
            && ResolveResult(s0, Load(Id), IntType, variant) == Success(IntValue(0))
            && ResolveResult(s1, Load(Id), IntType, variant) == Failure(variant.Raise(ResolverEmpty))
  {
    LoadSaveLoadDeclares();
    var s1 := ResolveNext(LoadSaveLoad(), Load(Id), IntType);
    assert s1.registered == [[Load(Id)]];
    assert s1.resolvers.Keys == {[Save(Id, 10)], [Save(Id, 10), Load(Id)]};
    assert ([Load(Id)] + [Load(Id)])[0] == Load(Id);
    assert !Continues(s1, Load(Id), IntType);
  }

  /** Through the base class: `load` twice breaks the chain; the second `load` throws `resolverEmpty`. */
  method ExpectationsWithUnfollowedSequence() returns (first: Answer, second: Answer)
    ensures first == Success(IntValue(0))
    ensures second == Failure(AsMockError(ResolverEmpty))
  {
    UnfollowedSequenceTrace(ClassMock);
    var mock: ClassServiceMock := new Mock();
    var e1 := mock.Expect(Load(Id), None, IntResolver(0));
    var e2 := mock.Expect(Save(Id, 10), None, VoidResolver);
    var e3 := mock.Expect(Load(Id), Some(Save(Id, 10)), IntResolver(10));
    first := mock.Resolve(Load(Id), IntType);
    second := mock.Resolve(Load(Id), IntType);
  }

  /** The actor: `load` twice breaks the chain and the second call throws `ActorMockError.resolverEmpty`. */
  method UnfollowedSequenceInConcurrency() returns (first: Answer, second: Answer)
    ensures first == Success(IntValue(0))
    ensures second == Failure(AsActorMockError(ResolverEmpty))
  {
    UnfollowedSequenceTrace(ActorMock);
    var mock: Service := new ExpectationEngine(ActorMock);
    ExpectLoadSaveLoad(mock);
    first := mock.Resolve(Load(Id), IntType);
    second := mock.Resolve(Load(Id), IntType);
  }

  /** `load` returning 10 and `save(v)`, declared as one-call expectations in the order the task group picked. */
  function LoadAndSave(loadDeclaredFirst: bool, v: int): State<ServiceCall, SwiftType, Payload, string> {
    if loadDeclaredFirst then
      ExpectNext(ExpectNext(Empty(), Load(Id), None, IntResolver(10)), Save(Id, v), None, VoidResolver)
    else
      ExpectNext(ExpectNext(Empty(), Save(Id, v), None, VoidResolver), Load(Id), None, IntResolver(10))
  }

  /** Declared in either order, `load` then `save(v)` each find their own resolver and `verify` passes. */
  lemma ConcurrentExpectationsTwoMethodsTrace(loadDeclaredFirst: bool, v: int)
    ensures var s0 := LoadAndSave(loadDeclaredFirst, v);
            var s1 := ResolveNext(s0, Load(Id), IntType);
            var s2 := ResolveNext(s1, Save(Id, v), VoidType);
            && ResolveResult(s0, Load(Id), IntType, ActorMock) == Success(IntValue(10))
            && ResolveResult(s1, Save(Id, v), VoidType, ActorMock) == Success(VoidValue)
            && VerifyOutcome<ServiceCall, string>(s2.expected, s2.registered) == Success(true)
  {
    var load, save := [Load(Id)], [Save(Id, v)];
    var s0 := LoadAndSave(loadDeclaredFirst, v);
    assert s0.expected == (if loadDeclaredFirst then [load, save] else [save, load]);
    assert s0.resolvers.Keys == {load, save};
    assert s0.resolvers[load] == IntResolver(10) && s0.resolvers[save] == VoidResolver;
    var s1 := ResolveNext(s0, Load(Id), IntType);
    assert s1.registered == [load];
    assert s1.resolvers.Keys == {save};
    assert ([Load(Id)] + [Save(Id, v)])[0] == Load(Id);
    var s2 := ResolveNext(s1, Save(Id, v), VoidType);
    assert s2.registered == [load, save];
  }

  /**
   * The actor: `load` returning 10 and `save(v)` expected concurrently, that
   * is, in either order, then called in order; both succeed and `verify`
   * passes. The tests use `v` = 10 and `v` = 20.
   */
  method ConcurrentExpectationsDifferentMethods(loadDeclaredFirst: bool, v: int)
    returns (loaded: Answer, saved: Answer, verified: Result<bool, Thrown<ServiceCall, string>>)
    ensures loaded == Success(IntValue(10))
    ensures saved == Success(VoidValue)
    ensures verified == Success(true)
  {
    ConcurrentExpectationsTwoMethodsTrace(loadDeclaredFirst, v);
    var mock: Service := new ExpectationEngine(ActorMock);
    if loadDeclaredFirst {
      var e1 := mock.Expect(Load(Id), None, IntResolver(10));
      var e2 := mock.Expect(Save(Id, v), None, VoidResolver);
    } else {
      var e1 := mock.Expect(Save(Id, v), None, VoidResolver);
      var e2 := mock.Expect(Load(Id), None, IntResolver(10));
    }
    assert mock.Snapshot() == LoadAndSave(loadDeclaredFirst, v);
    loaded := mock.Resolve(Load(Id), IntType);
    saved := mock.Resolve(Save(Id, v), VoidType);
    verified := mock.Verify();
  }

  /** The one-call expectations `save(p[0])`, `save(p[1])`, `save(p[2])`, declared in that order. */
  function SavesInOrder(p: seq<int>): State<ServiceCall, SwiftType, Payload, string>
    requires |p| == 3
  {
    var s1 := ExpectNext(Empty(), Save(Id, p[0]), None, VoidResolver);
    var s2 := ExpectNext(s1, Save(Id, p[1]), None, VoidResolver);
    ExpectNext(s2, Save(Id, p[2]), None, VoidResolver)
  }

  /** Whatever the order of declaration, the same three resolvers are bound. */
  lemma SavesInOrderDeclares(p: seq<int>)
    requires |p| == 3 && {p[0], p[1], p[2]} == {10, 20, 30}
    ensures SavesInOrder(p).expected == [[Save(Id, p[0])], [Save(Id, p[1])], [Save(Id, p[2])]]
    ensures SavesInOrder(p).resolvers == map[[Save(Id, 10)] := VoidResolver, [Save(Id, 20)] := VoidResolver,
                                             [Save(Id, 30)] := VoidResolver]
    ensures SavesInOrder(p).registered == []
  {
    var s10, s20, s30 := [Save(Id, 10)], [Save(Id, 20)], [Save(Id, 30)];
    assert {[Save(Id, p[0])], [Save(Id, p[1])], [Save(Id, p[2])]} == {s10, s20, s30} by {
      assert p[0] in {10, 20, 30} && p[1] in {10, 20, 30} && p[2] in {10, 20, 30};
      assert 10 in {p[0], p[1], p[2]} && 20 in {p[0], p[1], p[2]} && 30 in {p[0], p[1], p[2]};
    }
    var t := SavesInOrder(p);
    assert t.resolvers.Keys == {s10, s20, s30};
  }

  /** Called in the order 10, 20, 30, each `save` finds its own resolver, and `verify` passes. */
  lemma ConcurrentExpectationsTrace(p: seq<int>)
    requires |p| == 3 && {p[0], p[1], p[2]} == {10, 20, 30}
    ensures var s0 := SavesInOrder(p);
            var s1 := ResolveNext(s0, Save(Id, 10), VoidType);
            var s2 := ResolveNext(s1, Save(Id, 20), VoidType);
            var s3 := ResolveNext(s2, Save(Id, 30), VoidType);
            && ResolveResult(s0, Save(Id, 10), VoidType, ActorMock) == Success(VoidValue)
            && ResolveResult(s1, Save(Id, 20), VoidType, ActorMock) == Success(VoidValue)
            && ResolveResult(s2, Save(Id, 30), VoidType, ActorMock) == Success(VoidValue)
            && VerifyOutcome<ServiceCall, string>(s3.expected, s3.registered) == Success(true)
  {
    SavesInOrderDeclares(p);
    var s10, s20, s30 := [Save(Id, 10)], [Save(Id, 20)], [Save(Id, 30)];
    assert !Continues(SavesInOrder(p), Save(Id, 10), VoidType);
    var s1 := ResolveNext(SavesInOrder(p), Save(Id, 10), VoidType);
    assert s1.registered == [s10];
    assert s1.resolvers.Keys == {s20, s30};
    assert |s10 + [Save(Id, 20)]| == 2;
    assert !Continues(s1, Save(Id, 20), VoidType);
    var s2 := ResolveNext(s1, Save(Id, 20), VoidType);
    assert s2.registered == [s10, s20];
    assert s2.resolvers.Keys == {s30};
    assert |s20 + [Save(Id, 30)]| == 2;
    assert !Continues(s2, Save(Id, 30), VoidType);
    var s3 := ResolveNext(s2, Save(Id, 30), VoidType);
    assert s3.registered == [s10, s20, s30];
    SavesInAnyOrderVerify(p);
  }

  /** Declared in any order, the three sequences match the log 10, 20, 30. */
  lemma SavesInAnyOrderVerify(p: seq<int>)
    requires |p| == 3 && {p[0], p[1], p[2]} == {10, 20, 30}
    ensures VerifyOutcome<ServiceCall, string>([[Save(Id, p[0])], [Save(Id, p[1])], [Save(Id, p[2])]],
                                               [[Save(Id, 10)], [Save(Id, 20)], [Save(Id, 30)]]) == Success(true)
  {
    var expected := [[Save(Id, p[0])], [Save(Id, p[1])], [Save(Id, p[2])]];
    var registered := [[Save(Id, 10)], [Save(Id, 20)], [Save(Id, 30)]];
    assert 10 in p && 20 in p && 30 in p;
    assert AllContained(expected, registered) by {
      forall i | 0 <= i < |expected| ensures expected[i] in registered {
        assert p[i] in {10, 20, 30};
      }
    }
    assert AllContained(registered, expected) by {
      assert registered[0] in expected && registered[1] in expected && registered[2] in expected;
    }
  }

  /**
   * The actor: `save(10)`, `save(20)`, `save(30)` expected in any order (the
   * task group serialises them in some order `p`) and then called in order
   * 10, 20, 30; every call succeeds and `verify` passes.
   */
  method ConcurrentExpectationsSameMethodDifferentArgs(p: seq<int>)
    returns (saved: seq<Answer>, verified: Result<bool, Thrown<ServiceCall, string>>)
    requires |p| == 3 && {p[0], p[1], p[2]} == {10, 20, 30}
    ensures saved == [Success(VoidValue), Success(VoidValue), Success(VoidValue)]
    ensures verified == Success(true)
  {
    ConcurrentExpectationsTrace(p);
    var mock: Service := new ExpectationEngine(ActorMock);
    var e1 := mock.Expect(Save(Id, p[0]), None, VoidResolver);
    var e2 := mock.Expect(Save(Id, p[1]), None, VoidResolver);
    var e3 := mock.Expect(Save(Id, p[2]), None, VoidResolver);
    assert mock.Snapshot() == SavesInOrder(p);
    var s1 := mock.Resolve(Save(Id, 10), VoidType);
    var s2 := mock.Resolve(Save(Id, 20), VoidType);
    var s3 := mock.Resolve(Save(Id, 30), VoidType);
    saved := [s1, s2, s3];
    verified := mock.Verify();
  }

  /** `load` and `save(20)` expected, then called in either order. */
  lemma ConcurrentInvocationsTrace(loadFirst: bool)
    ensures var s1 := ExpectNext(Empty(), Load(Id), None, IntResolver(10));
            var s2 := ExpectNext(s1, Save(Id, 20), None, VoidResolver);
            var (c1, w1, c2, w2) := if loadFirst then (Load(Id), IntType, Save(Id, 20), VoidType)
                                    else (Save(Id, 20), VoidType, Load(Id), IntType);
            var s3 := ResolveNext(s2, c1, w1);
            var s4 := ResolveNext(s3, c2, w2);
            && ResolveResult(s2, c1, w1, ActorMock) == (if loadFirst then Success(IntValue(10)) else Success(VoidValue))
            && ResolveResult(s3, c2, w2, ActorMock) == (if loadFirst then Success(VoidValue) else Success(IntValue(10)))
            && VerifyOutcome<ServiceCall, string>(s4.expected, s4.registered) == Success(true)
  {
    var load, save := [Load(Id)], [Save(Id, 20)];
    var s1 := ExpectNext(Empty(), Load(Id), None, IntResolver(10));
    var s2 := ExpectNext(s1, Save(Id, 20), None, VoidResolver);
    assert s2.expected == [load, save];
    assert s2.resolvers.Keys == {load, save};
    if loadFirst {
      var s3 := ResolveNext(s2, Load(Id), IntType);
      assert s3.registered == [load];
      assert s3.resolvers.Keys == {save};
      assert ([Load(Id)] + [Save(Id, 20)])[0] == Load(Id);
      var s4 := ResolveNext(s3, Save(Id, 20), VoidType);
      assert s4.registered == [load, save];
    } else {
      var s3 := ResolveNext(s2, Save(Id, 20), VoidType);
      assert s3.registered == [save];
      assert s3.resolvers.Keys == {load};
      assert ([Save(Id, 20)] + [Load(Id)])[0] == Save(Id, 20);
      var s4 := ResolveNext(s3, Load(Id), IntType);
      assert s4.registered == [save, load];
    }
  }

  /**
   * The actor: `load` and `save(20)` expected, then invoked concurrently,
   * that is, in either order; both succeed and `verify` passes.
   */
  method ConcurrentInvocations(loadFirst: bool)
    returns (loaded: Answer, saved: Answer, verified: Result<bool, Thrown<ServiceCall, string>>)
    ensures loaded == Success(IntValue(10))
    ensures saved == Success(VoidValue)
    ensures verified == Success(true)
  {
    ConcurrentInvocationsTrace(loadFirst);
    var mock: Service := new ExpectationEngine(ActorMock);
    var e1 := mock.Expect(Load(Id), None, IntResolver(10));
    var e2 := mock.Expect(Save(Id, 20), None, VoidResolver);
    if loadFirst {
      loaded := mock.Resolve(Load(Id), IntType);
      saved := mock.Resolve(Save(Id, 20), VoidType);
    } else {
      saved := mock.Resolve(Save(Id, 20), VoidType);
      loaded := mock.Resolve(Load(Id), IntType);
    }
    verified := mock.Verify();
  }

  /**
   * The actor's `verify` clears the engine even when it throws: an
   * expectation of the previous cycle is gone, so the next cycle's `load`
   * throws and is then reported as unexpected.
   */
  method ActorVerifyResets()
    returns (firstVerify: Result<bool, Thrown<ServiceCall, string>>, loaded: Answer,
             secondVerify: Result<bool, Thrown<ServiceCall, string>>, cleared: bool)
    ensures firstVerify == Failure(AsMockError(MissingExpected([Load(Id)])))
    ensures loaded == Failure(AsActorMockError(ResolverEmpty))
    ensures secondVerify == Failure(AsMockError(UnexpectedMethod([Load(Id)])))
    ensures cleared
  {
    var mock: Service := new ExpectationEngine(ActorMock);
    var e := mock.Expect(Load(Id), None, IntResolver(10));
    firstVerify := mock.Verify();
    loaded := mock.Resolve(Load(Id), IntType);
    secondVerify := mock.Verify();
    cleared := mock.Snapshot() == Empty();
  }

  /** `load`, then `save` chained after it with a throwing resolver. */
  function ChainErrorPrefix(): State<ServiceCall, SwiftType, Payload, string> {
    ExpectNext(ExpectNext(Empty(), Load(Id), None, IntResolver(0)), Save(Id, 10), Some(Load(Id)), Throws("disk full"))
  }

  /** The chained `save` lengthens the sequence `[load]` and binds the throwing resolver to `[load, save]`. */
  lemma ChainErrorPrefixDeclares()
    ensures ChainErrorPrefix().expected == [[Load(Id), Save(Id, 10)]]
    ensures ChainErrorPrefix().resolvers == map[[Load(Id)] := IntResolver(0), [Load(Id), Save(Id, 10)] := Throws("disk full")]
    ensures ChainErrorPrefix().registered == []
  {
    assert [Load(Id)] + [Save(Id, 10)] == [Load(Id), Save(Id, 10)];
  }

  /** The same, followed by a plain `save`. */
  function ChainErrorSetup(): State<ServiceCall, SwiftType, Payload, string> {
    ExpectNext(ChainErrorPrefix(), Save(Id, 10), None, VoidResolver)
  }

  /** `load` takes its own resolver and leaves the chain `[load, save]` to follow. */
  lemma ChainErrorLoadStep()
    ensures ResolveResult(ChainErrorSetup(), Load(Id), IntType, ActorMock) == Success(IntValue(0))
    ensures var s1 := ResolveNext(ChainErrorSetup(), Load(Id), IntType);
            && s1.expected == [[Load(Id), Save(Id, 10)], [Save(Id, 10)]]
            && s1.registered == [[Load(Id)]]
            && s1.resolvers.Keys == {[Load(Id), Save(Id, 10)], [Save(Id, 10)]}
            && s1.resolvers[[Load(Id), Save(Id, 10)]].Throws?
            && s1.resolvers[[Save(Id, 10)]] == VoidResolver
  {
    ChainErrorPrefixDeclares();
    var load, save, loadSave := [Load(Id)], [Save(Id, 10)], [Load(Id), Save(Id, 10)];
    var s0 := ChainErrorSetup();
    assert s0.expected == [loadSave, save];
    assert s0.resolvers.Keys == {load, loadSave, save};
    assert !Continues(s0, Load(Id), IntType);
  }

  /** `save` then meets the throwing chain, falls back to `[save]`, and the chain is reported missing. */
  lemma ActorChainErrorFallsBackTrace()
    ensures var s0 := ChainErrorSetup();
            var s1 := ResolveNext(s0, Load(Id), IntType);
            var s2 := ResolveNext(s1, Save(Id, 10), VoidType);
            && ResolveResult(s0, Load(Id), IntType, ActorMock) == Success(IntValue(0))
            && ResolveResult(s1, Save(Id, 10), VoidType, ActorMock) == Success(VoidValue)
            && VerifyOutcome<ServiceCall, string>(s2.expected, s2.registered)
               == Failure(AsMockError(MissingExpected([Load(Id), Save(Id, 10)])))
  {
    ChainErrorLoadStep();
    var load, save, loadSave := [Load(Id)], [Save(Id, 10)], [Load(Id), Save(Id, 10)];
    assert load + [Save(Id, 10)] == loadSave;
    var s1 := ResolveNext(ChainErrorSetup(), Load(Id), IntType);
    var s2 := ResolveNext(s1, Save(Id, 10), VoidType);
    assert s2.registered == [load, save];
    assert loadSave !in s2.registered;
  }

  /**
   * The actor: an error thrown by the resolver of the chain `[load, save]`
   * is swallowed and `save` falls back to its own one-call expectation.
   */
  method ActorChainErrorFallsBack()
    returns (loaded: Answer, saved: Answer, verified: Result<bool, Thrown<ServiceCall, string>>)
    ensures loaded == Success(IntValue(0))
    ensures saved == Success(VoidValue)
    ensures verified == Failure(AsMockError(MissingExpected([Load(Id), Save(Id, 10)])))
  {
    ActorChainErrorFallsBackTrace();
    var mock: Service := new ExpectationEngine(ActorMock);
    var e1 := mock.Expect(Load(Id), None, IntResolver(0));
    var e2 := mock.Expect(Save(Id, 10), Some(Load(Id)), Throws("disk full"));
    var e3 := mock.Expect(Save(Id, 10), None, VoidResolver);
    assert mock.Snapshot() == ChainErrorSetup();
    loaded := mock.Resolve(Load(Id), IntType);
    saved := mock.Resolve(Save(Id, 10), VoidType);
    verified := mock.Verify();
  }

  /** The expectations `load`, `save(5) after load`, `load after save(5)`. */
  function ThreeCallSetup(): State<ServiceCall, SwiftType, Payload, string> {
    var s1 := ExpectNext(Empty(), Load(Id), None, IntResolver(1));
    var s2 := ExpectNext(s1, Save(Id, 5), Some(Load(Id)), VoidResolver);
    ExpectNext(s2, Load(Id), Some(Save(Id, 5)), IntResolver(2))
  }

  /** The setup declares one sequence, the whole chain, with a resolver for each of its prefixes. */
  lemma ThreeCallSetupDeclares()
    ensures ThreeCallSetup().expected == [[Load(Id), Save(Id, 5), Load(Id)]]
    ensures ThreeCallSetup().resolvers
         == map[[Load(Id)] := IntResolver(1), [Load(Id), Save(Id, 5)] := VoidResolver,
                [Load(Id), Save(Id, 5), Load(Id)] := IntResolver(2)]
    ensures ThreeCallSetup().registered == []
  {
    var load, loadSave, chain := [Load(Id)], [Load(Id), Save(Id, 5)], [Load(Id), Save(Id, 5), Load(Id)];
    assert load + [Save(Id, 5)] == loadSave;
    assert loadSave + [Load(Id)] == chain;
    var s1 := ExpectNext(Empty(), Load(Id), None, IntResolver(1));
    assert s1.expected == [load];
    var s2 := ExpectNext(s1, Save(Id, 5), Some(Load(Id)), VoidResolver);
    assert s2.expected == [loadSave];
  }

  /** The first `load` starts the chain: it is no continuation and takes the resolver of `[load]`. */
  lemma ThreeCallLoadStep()
    ensures ResolveResult(ThreeCallSetup(), Load(Id), IntType, ProtocolMock) == Success(IntValue(1))
    ensures var s1 := ResolveNext(ThreeCallSetup(), Load(Id), IntType);
            && s1.expected == [[Load(Id), Save(Id, 5), Load(Id)]]
            && s1.registered == [[Load(Id)]]
            && s1.resolvers.Keys == {[Load(Id), Save(Id, 5)], [Load(Id), Save(Id, 5), Load(Id)]}
            && s1.resolvers[[Load(Id), Save(Id, 5)]] == VoidResolver
            && s1.resolvers[[Load(Id), Save(Id, 5), Load(Id)]] == IntResolver(2)
  {
    ThreeCallSetupDeclares();
    assert !Continues(ThreeCallSetup(), Load(Id), IntType);
  }

  /** From any state that has registered `[load]` and binds the chain, `save(5)` continues it to `[load, save(5)]`. */
  lemma SaveContinuesLoad(s1: State<ServiceCall, SwiftType, Payload, string>)
    requires s1.registered == [[Load(Id)]]
    requires s1.resolvers.Keys == {[Load(Id), Save(Id, 5)], [Load(Id), Save(Id, 5), Load(Id)]}
    requires s1.resolvers[[Load(Id), Save(Id, 5)]] == VoidResolver
    requires s1.resolvers[[Load(Id), Save(Id, 5), Load(Id)]] == IntResolver(2)
    ensures ResolveResult(s1, Save(Id, 5), VoidType, ProtocolMock) == Success(VoidValue)
    ensures var s2 := ResolveNext(s1, Save(Id, 5), VoidType);
            && s2.registered == [[Load(Id), Save(Id, 5)]]
            && [Load(Id), Save(Id, 5), Load(Id)] in s2.resolvers
            && s2.resolvers[[Load(Id), Save(Id, 5), Load(Id)]] == IntResolver(2)
  {
    var loadSave := [Load(Id), Save(Id, 5)];
    assert Last(s1.registered) + [Save(Id, 5)] == loadSave;
    assert Continues(s1, Save(Id, 5), VoidType);
    var s2 := ResolveNext(s1, Save(Id, 5), VoidType);
    assert s2.registered == [loadSave];
  }

  /** The first two calls walk `[load]` and `[load, save(5)]`. */
  lemma ThreeCallChainPrefix()
    ensures var s0 := ThreeCallSetup();
            var s1 := ResolveNext(s0, Load(Id), IntType);
            var s2 := ResolveNext(s1, Save(Id, 5), VoidType);
            && ResolveResult(s0, Load(Id), IntType, ProtocolMock) == Success(IntValue(1))
            && ResolveResult(s1, Save(Id, 5), VoidType, ProtocolMock) == Success(VoidValue)
            && s2.registered == [[Load(Id), Save(Id, 5)]]
            && [Load(Id), Save(Id, 5), Load(Id)] in s2.resolvers
            && s2.resolvers[[Load(Id), Save(Id, 5), Load(Id)]] == IntResolver(2)
  {
    ThreeCallLoadStep();
    SaveContinuesLoad(ResolveNext(ThreeCallSetup(), Load(Id), IntType));
  }

  /** From any state that has registered `[load, save(5)]` and binds the whole chain, `load` completes it. */
  lemma LoadCompletesChain(s2: State<ServiceCall, SwiftType, Payload, string>)
    requires s2.expected == [[Load(Id), Save(Id, 5), Load(Id)]]
    requires s2.registered == [[Load(Id), Save(Id, 5)]]
    requires [Load(Id), Save(Id, 5), Load(Id)] in s2.resolvers
    requires s2.resolvers[[Load(Id), Save(Id, 5), Load(Id)]] == IntResolver(2)
    ensures ResolveResult(s2, Load(Id), IntType, ProtocolMock) == Success(IntValue(2))
    ensures var s3 := ResolveNext(s2, Load(Id), IntType);
            && s3.registered == [[Load(Id), Save(Id, 5), Load(Id)]]
            && VerifyOutcome<ServiceCall, string>(s3.expected, s3.registered) == Success(true)
  {
    var chain := [Load(Id), Save(Id, 5), Load(Id)];
    assert Last(s2.registered) + [Load(Id)] == chain;
    assert Continues(s2, Load(Id), IntType);
  }

  /** The three calls of `ThreeCallChain` follow the chain to its end. */
  lemma ThreeCallChainTrace()
    ensures var s0 := ThreeCallSetup();
            var s1 := ResolveNext(s0, Load(Id), IntType);
            var s2 := ResolveNext(s1, Save(Id, 5), VoidType);
            var s3 := ResolveNext(s2, Load(Id), IntType);
            && ResolveResult(s0, Load(Id), IntType, ProtocolMock) == Success(IntValue(1))
            && ResolveResult(s1, Save(Id, 5), VoidType, ProtocolMock) == Success(VoidValue)
            && ResolveResult(s2, Load(Id), IntType, ProtocolMock) == Success(IntValue(2))
            && s3.registered == [[Load(Id), Save(Id, 5), Load(Id)]]
            && VerifyOutcome<ServiceCall, string>(s3.expected, s3.registered) == Success(true)
  {
    ThreeCallChainPrefix();
    ThreeCallSetupDeclares();
    LoadCompletesChain(ResolveNext(ResolveNext(ThreeCallSetup(), Load(Id), IntType), Save(Id, 5), VoidType));
  }

  /**
   * A chain of three declared calls is followed to its end: each call
   * extends the last registered sequence, so `verify` passes.
   */
  method ThreeCallChain()
    returns (answers: seq<Answer>, log: seq<seq<ServiceCall>>, verified: Result<bool, Thrown<ServiceCall, string>>)
    ensures answers == [Success(IntValue(1)), Success(VoidValue), Success(IntValue(2))]
    ensures log == [[Load(Id), Save(Id, 5), Load(Id)]]
    ensures verified == Success(true)
  {
    ThreeCallChainTrace();
    var mock: Service := new ExpectationEngine(ProtocolMock);
    var e1 := mock.Expect(Load(Id), None, IntResolver(1));
    var e2 := mock.Expect(Save(Id, 5), Some(Load(Id)), VoidResolver);
    var e3 := mock.Expect(Load(Id), Some(Save(Id, 5)), IntResolver(2));
    assert mock.Snapshot() == ThreeCallSetup();
    var a1 := mock.Resolve(Load(Id), IntType);
    var a2 := mock.Resolve(Save(Id, 5), VoidType);
    var a3 := mock.Resolve(Load(Id), IntType);
    answers := [a1, a2, a3];
    log := mock.registered;
    verified := mock.Verify();
  }
}
