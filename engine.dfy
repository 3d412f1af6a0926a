/**
 * The stateful engines: the object whose three collections `expect`,
 * `resolve` and `verify` update in place, and the `Mock<Methods>` base class
 * that keeps one such object as its private `mockLogic`.
 */
module Engine {
  import opened Wrappers
  import opened Containment
  import opened MockLogic

  /**
   * `MockLogic` (Mock.swift), the stored properties of a `Mock` conformer
   * together with the protocol extension (SimpleMock.swift), or
   * `ActorMockLogic` (ActorMock.swift), as `variant` says.
   */
  class ExpectationEngine<M(==), T(==), V, E> {
    const variant: Variant
    var expected: seq<seq<M>>
    var resolvers: map<seq<M>, Resolver<T, V, E>>
    var registered: seq<seq<M>>

    /** The three collections as one value. */
    function Snapshot(): State<M, T, V, E>
      reads this
    {
      State(expected, resolvers, registered)
    }

    ghost predicate Valid()
      reads this
    {
      Consistent(Snapshot(), variant)
    }

    constructor (variant: Variant)
      ensures this.variant == variant
      ensures Snapshot() == Empty()
      ensures Valid()
    {
      this.variant := variant;
      expected := [];
      resolvers := map[];
      registered := [];
      new;
      EmptyIsConsistent<M, T, V, E>(variant);
    }

    /**
     * `expect(method:after:resolver:)`. The synchronous copies only accept
     * resolvers that cannot throw.
     */
    method Expect(call: M, after: Option<M>, resolver: Resolver<T, V, E>) returns (r: Outcome<Thrown<M, E>>)
      requires Valid()
      requires variant.AllowsThrowingResolvers() || resolver.Returns?
      modifies this
      ensures Valid()
      ensures Snapshot() == ExpectNext(old(Snapshot()), call, after, resolver)
      ensures r == ExpectResult(old(expected), variant, call, after)
    {
      ExpectPreservesConsistency(Snapshot(), variant, call, after, resolver);
      if after.None? {
        var sequence := [call];
        expected := expected + [sequence];
        resolvers := resolvers[sequence := resolver];
      } else if |expected| > 0 && |expected[|expected| - 1]| > 0
                && expected[|expected| - 1][|expected[|expected| - 1]| - 1] == after.value {
        var lastSequence := expected[|expected| - 1] + [call];
        expected := expected[..|expected| - 1];
        expected := expected + [lastSequence];
        resolvers := resolvers[lastSequence := resolver];
      } else {
        return Fail(variant.Raise(CouldNotAddInSequence(call, after.value)));
      }
      return Pass;
    }

    /** `resolve(method:)`, asking for a value of type `wanted`. */
    method Resolve(call: M, wanted: T) returns (r: Result<V, Thrown<M, E>>)
      requires Valid()
      modifies this
      ensures Valid()
      ensures Snapshot() == ResolveNext(old(Snapshot()), call, wanted)
      ensures r == ResolveResult(old(Snapshot()), call, wanted, variant)
    {
      ResolvePreservesConsistency(Snapshot(), variant, call, wanted);
      var sequence := [call];
      if |registered| > 0 {
        sequence := registered[|registered| - 1] + [call];
      }
      var first := ResultOf(resolvers, sequence, wanted, variant);
      if first.Failure? {
        var single := [call];
        registered := registered + [single];
        var second := ResultOf(resolvers, single, wanted, variant);
        if second.Failure? {
          return second;
        }
        resolvers := resolvers - {single};
        return second;
      }
      resolvers := resolvers - {sequence};
      if |sequence| > 1 {
        registered := registered[..|registered| - 1];
      }
      registered := registered + [sequence];
      return first;
    }

    /**
     * `verify()`. The synchronous copies only compare; the actor compares
     * with two containment scans and then, on every exit path, empties all
     * three collections.
     */
    method Verify() returns (r: Result<bool, Thrown<M, E>>)
      requires Valid()
      modifies this
      ensures Valid()
      ensures r == VerifyOutcome(old(expected), old(registered))
      ensures variant.ClearsOnVerify() ==> Snapshot() == Empty()
      ensures !variant.ClearsOnVerify() ==> Snapshot() == old(Snapshot())
    {
      if !variant.ClearsOnVerify() {
        return VerifyOutcome(expected, registered);
      }
      var missing := EnsureAllElementsAreContainedIn(expected, registered,
                                                     (s: seq<M>) => Thrown<M, E>.AsMockError(MissingExpected(s)));
      if missing.Fail? {
        r := Failure(missing.error);
      } else {
        var unexpected := EnsureAllElementsAreContainedIn(registered, expected,
                                                          (s: seq<M>) => Thrown<M, E>.AsMockError(UnexpectedMethod(s)));
        r := if unexpected.Fail? then Failure(unexpected.error) else Success(true);
      }
      expected := [];
      resolvers := map[];
      registered := [];
      EmptyIsConsistent<M, T, V, E>(variant);
    }
  }

  /** The open base class `Mock<Methods>`, which forwards to its private `mockLogic`. */
  class Mock<M(==), T(==), V, E> {
    const mockLogic: ExpectationEngine<M, T, V, E>

    ghost predicate Valid()
      reads this, mockLogic
    {
      mockLogic.variant == ClassMock && mockLogic.Valid()
    }

    constructor ()
      ensures Valid()
      ensures fresh(mockLogic)
      ensures mockLogic.Snapshot() == Empty()
    {
      mockLogic := new ExpectationEngine(ClassMock);
    }

    method Expect(call: M, after: Option<M>, resolver: Resolver<T, V, E>) returns (r: Outcome<Thrown<M, E>>)
      requires Valid()
      requires resolver.Returns?
      modifies mockLogic
      ensures Valid()
      ensures mockLogic.Snapshot() == ExpectNext(old(mockLogic.Snapshot()), call, after, resolver)
      ensures r == ExpectResult(old(mockLogic.expected), ClassMock, call, after)
    {
      r := mockLogic.Expect(call, after, resolver);
    }

    method Resolve(call: M, wanted: T) returns (r: Result<V, Thrown<M, E>>)
      requires Valid()
      modifies mockLogic
      ensures Valid()
      ensures mockLogic.Snapshot() == ResolveNext(old(mockLogic.Snapshot()), call, wanted)
      ensures r == ResolveResult(old(mockLogic.Snapshot()), call, wanted, ClassMock)
    {
      r := mockLogic.Resolve(call, wanted);
    }

    method Verify() returns (r: Result<bool, Thrown<M, E>>)
      requires Valid()
      modifies mockLogic
      ensures Valid()
      ensures r == VerifyOutcome(old(mockLogic.expected), old(mockLogic.registered))
      ensures mockLogic.Snapshot() == old(mockLogic.Snapshot())
    {
      r := mockLogic.Verify();
    }
  }
}
