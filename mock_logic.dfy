/**
 * The expectation engine of SimpleMock as pure functions over a state value.
 *
 * The three Swift copies (the class-wrapped `MockLogic`, the extension of the
 * `Mock` protocol and the actor `ActorMockLogic`) share one algorithm; a
 * `Variant` records which copy runs, because they differ in the error enum
 * that `expect` and `resolve` throw, in whether a resolver may throw, and in
 * whether `verify` clears the state.
 */
module MockLogic {
  import opened Wrappers
  import opened Containment

  /** The cases of `MockError`, and equally of `ActorMockError`. */
  datatype MockError<M> =
    | ResolverEmpty
    | InvalidCastType
    | MissingExpected(sequence: seq<M>)
    | CouldNotAddInSequence(call: M, after: M)
    | UnexpectedMethod(sequence: seq<M>)

  /** An error as the caller catches it: which Swift enum carries it, or the resolver's own error. */
  datatype Thrown<M, E> =
    | AsMockError(error: MockError<M>)
    | AsActorMockError(error: MockError<M>)
    | FromResolver(cause: E)

  /** Which of the three copies of the engine is running. */
  datatype Variant = ClassMock | ProtocolMock | ActorMock {
    /** Only the actor's `verify` empties the engine, in a `defer` block. */
    predicate ClearsOnVerify() { ActorMock? }

    /** Only the actor stores `async throws` resolvers; the others store `() -> Any`. */
    predicate AllowsThrowingResolvers() { ActorMock? }

    /** The error enum that `expect` and `resolve` throw in this copy. */
    function Raise<M, E>(e: MockError<M>): Thrown<M, E> {
      if ActorMock? then AsActorMockError(e) else AsMockError(e)
    }
  }

  /**
   * A stored resolver, represented by the one outcome its closure produces:
   * a value together with its dynamic type, or a thrown error.
   */
  datatype Resolver<T, V, E> = Returns(tag: T, value: V) | Throws(error: E)

  /** The three collections `methodsExpected`, `methodsResolvers`, `methodsRegistered`. */
  datatype State<M(==), T, V, E> = State(
    expected: seq<seq<M>>,
    resolvers: map<seq<M>, Resolver<T, V, E>>,
    registered: seq<seq<M>>)

  /** The state of a newly created engine. */
  function Empty<M(==), T, V, E>(): State<M, T, V, E> {
    State([], map[], [])
  }

  function Last<X>(s: seq<X>): X
    requires |s| > 0
  {
    s[|s| - 1]
  }

  function DropLast<X>(s: seq<X>): seq<X>
    requires |s| > 0
  {
    s[..|s| - 1]
  }

  // ---------------------------------------------------------------------------
  // expect(method:after:resolver:)
  // ---------------------------------------------------------------------------

  /** `after` equals the final call of the most recently declared sequence. */
  predicate CanChain<M(==)>(expected: seq<seq<M>>, after: M) {
    |expected| > 0 && |Last(expected)| > 0 && Last(Last(expected)) == after
  }

  /** The expectations never lose a sequence, and each one can only grow at its end. */
  ghost predicate Extends<M>(before: seq<seq<M>>, after: seq<seq<M>>) {
    |before| <= |after| && forall i :: 0 <= i < |before| ==> before[i] <= after[i]
  }

  /** The state after `expect(call, after, resolver)`. */
  function ExpectNext<M(==), T, V, E>(s: State<M, T, V, E>, call: M, after: Option<M>, resolver: Resolver<T, V, E>)
    : (t: State<M, T, V, E>)
    ensures t.registered == s.registered
    ensures after.None? ==>
              && t.expected == s.expected + [[call]]
              && t.resolvers == s.resolvers[[call] := resolver]
    ensures after.Some? && CanChain(s.expected, after.value) ==>
              && |t.expected| == |s.expected|
              && DropLast(t.expected) == DropLast(s.expected)
              && Last(t.expected) == Last(s.expected) + [call]
              && t.resolvers == s.resolvers[Last(t.expected) := resolver]
              && (Last(s.expected) in s.resolvers ==>
                    Last(s.expected) in t.resolvers && t.resolvers[Last(s.expected)] == s.resolvers[Last(s.expected)])
    ensures after.Some? && !CanChain(s.expected, after.value) ==> t == s
  {
    match after
    case None =>
      var sequence := [call];
      s.(expected := s.expected + [sequence], resolvers := s.resolvers[sequence := resolver])
    case Some(a) =>
      if CanChain(s.expected, a) then
        var lastSequence := Last(s.expected) + [call];
        s.(expected := DropLast(s.expected) + [lastSequence], resolvers := s.resolvers[lastSequence := resolver])
      else
        s
  }

  /** `expect` never drops a declared sequence and only ever lengthens the last one. */
  lemma ExpectExtends<M, T, V, E>(s: State<M, T, V, E>, call: M, after: Option<M>, resolver: Resolver<T, V, E>)
    ensures Extends(s.expected, ExpectNext(s, call, after, resolver).expected)
  {
    var t := ExpectNext(s, call, after, resolver);
    if after.Some? && CanChain(s.expected, after.value) {
      forall i | 0 <= i < |s.expected| ensures s.expected[i] <= t.expected[i] {
        if i < |s.expected| - 1 {
          assert s.expected[i] == DropLast(s.expected)[i] && t.expected[i] == DropLast(t.expected)[i];
        }
      }
    }
  }

  /**
   * What `expect` throws: `couldNotAddInSequence(call, after)` exactly when
   * an `after` is given and there is no declared sequence, or the last one
   * does not end with `after`.
   */
  function ExpectResult<M(==), E>(expected: seq<seq<M>>, variant: Variant, call: M, after: Option<M>)
    : (r: Outcome<Thrown<M, E>>)
    ensures r.Fail? <==> after.Some? && (expected == [] || Last(expected) == [] || Last(Last(expected)) != after.value)
    ensures r.Fail? ==> r.error == variant.Raise(CouldNotAddInSequence(call, after.value))
  {
    if after.Some? && !CanChain(expected, after.value) then
      Fail(variant.Raise(CouldNotAddInSequence(call, after.value)))
    else
      Pass
  }

  // ---------------------------------------------------------------------------
  // result(sequence:) and resolve(method:)
  // ---------------------------------------------------------------------------

  /** A resolver is bound to `key` and produces a value of the type the caller asks for. */
  predicate Resolves<M(==), T(==), V, E>(resolvers: map<seq<M>, Resolver<T, V, E>>, key: seq<M>, wanted: T) {
    key in resolvers && resolvers[key].Returns? && resolvers[key].tag == wanted
  }

  /** The private `result(sequence:)`: look up the resolver, run it, cast its value to `wanted`. */
  function ResultOf<M(==), T(==), V, E>(
    resolvers: map<seq<M>, Resolver<T, V, E>>, sequence: seq<M>, wanted: T, variant: Variant)
    : (r: Result<V, Thrown<M, E>>)
    ensures r.Success? <==> Resolves(resolvers, sequence, wanted)
    ensures r.Success? ==> r.value == resolvers[sequence].value
    ensures sequence !in resolvers ==> r == Failure(variant.Raise(ResolverEmpty))
    ensures sequence in resolvers && resolvers[sequence].Throws? ==>
              r == Failure(FromResolver(resolvers[sequence].error))
    ensures sequence in resolvers && resolvers[sequence].Returns? && resolvers[sequence].tag != wanted ==>
              r == Failure(variant.Raise(InvalidCastType))
  {
    if sequence !in resolvers then Failure(variant.Raise(ResolverEmpty))
    else match resolvers[sequence]
      case Throws(e) => Failure(FromResolver(e))
      case Returns(tag, v) => if tag == wanted then Success(v) else Failure(variant.Raise(InvalidCastType))
  }

  /** The key `resolve` tries first: the last registered sequence extended by `call`, or `[call]`. */
  function ChainKey<M>(registered: seq<seq<M>>, call: M): seq<M> {
    if |registered| > 0 then Last(registered) + [call] else [call]
  }

  /** `call` continues the last registered sequence along a declared chain. */
  predicate Continues<M(==), T(==), V, E>(s: State<M, T, V, E>, call: M, wanted: T) {
    |s.registered| > 0 && |Last(s.registered)| > 0 && Resolves(s.resolvers, Last(s.registered) + [call], wanted)
  }

  /**
   * The state after `resolve(call)` with result type `wanted`. A continuation
   * replaces the last registered sequence by its extension; any other call is
   * appended as `[call]`, whether or not it resolves. The resolver used is
   * removed; a failing call removes none.
   */
  function ResolveNext<M(==), T(==), V, E>(s: State<M, T, V, E>, call: M, wanted: T): (t: State<M, T, V, E>)
    ensures t.expected == s.expected
    ensures Continues(s, call, wanted) ==>
              && |t.registered| == |s.registered|
              && DropLast(t.registered) == DropLast(s.registered)
              && Last(t.registered) == Last(s.registered) + [call]
              && t.resolvers == s.resolvers - {Last(t.registered)}
    ensures !Continues(s, call, wanted) ==>
              && t.registered == s.registered + [[call]]
              && t.resolvers == if Resolves(s.resolvers, [call], wanted) then s.resolvers - {[call]} else s.resolvers
  {
    var sequence := ChainKey(s.registered, call);
    assert !Continues(s, call, wanted) && Resolves(s.resolvers, sequence, wanted) ==> sequence == [call];
    if Resolves(s.resolvers, sequence, wanted) then
      var registered := if |sequence| > 1 then DropLast(s.registered) else s.registered;
      s.(resolvers := s.resolvers - {sequence}, registered := registered + [sequence])
    else
      var single := [call];
      var resolvers := if Resolves(s.resolvers, single, wanted) then s.resolvers - {single} else s.resolvers;
      s.(resolvers := resolvers, registered := s.registered + [single])
  }

  /**
   * What `resolve(call)` returns. Any failure of the chained lookup is
   * swallowed (`try?`), and then only the outcome of the lookup of `[call]`
   * reaches the caller.
   */
  function ResolveResult<M(==), T(==), V, E>(s: State<M, T, V, E>, call: M, wanted: T, variant: Variant)
    : (r: Result<V, Thrown<M, E>>)
    ensures Continues(s, call, wanted) ==> r == Success(s.resolvers[Last(s.registered) + [call]].value)
    ensures !Continues(s, call, wanted) ==> r == ResultOf(s.resolvers, [call], wanted, variant)
  {
    var sequence := ChainKey(s.registered, call);
    var first := ResultOf(s.resolvers, sequence, wanted, variant);
    assert !Continues(s, call, wanted) && first.Success? ==> sequence == [call];
    if first.Success? then first else ResultOf(s.resolvers, [call], wanted, variant)
  }

  /**
   * A successful call removes exactly the resolver whose value it returned;
   * a failing call removes none and is still recorded as `[call]`.
   */
  lemma ResolveConsumesOnlyWhatItUses<M, T, V, E>(s: State<M, T, V, E>, call: M, wanted: T, variant: Variant)
    ensures var r := ResolveResult(s, call, wanted, variant);
            var t := ResolveNext(s, call, wanted);
            && (r.Success? ==>
                  exists key :: key in s.resolvers && s.resolvers[key] == Returns(wanted, r.value)
                                 && t.resolvers == s.resolvers - {key})
            && (r.Failure? ==> t.resolvers == s.resolvers && Last(t.registered) == [call])
  {
    var r := ResolveResult(s, call, wanted, variant);
    var t := ResolveNext(s, call, wanted);
    if r.Success? {
      var key := if Continues(s, call, wanted) then Last(s.registered) + [call] else [call];
      assert key in s.resolvers && s.resolvers[key] == Returns(wanted, r.value) && t.resolvers == s.resolvers - {key};
    }
  }

  /**
   * `resolve` never shortens the registered log: it grows by one entry
   * except on a continuation, and every entry but the last is kept.
   */
  lemma ResolveKeepsRegisteredLog<M, T, V, E>(s: State<M, T, V, E>, call: M, wanted: T)
    ensures var t := ResolveNext(s, call, wanted);
            && |t.registered| == |s.registered| + (if Continues(s, call, wanted) then 0 else 1)
            && forall i :: 0 <= i < |s.registered| - 1 ==> t.registered[i] == s.registered[i]
  {
    var t := ResolveNext(s, call, wanted);
    if Continues(s, call, wanted) {
      forall i | 0 <= i < |s.registered| - 1 ensures t.registered[i] == s.registered[i] {
        assert t.registered[i] == DropLast(t.registered)[i];
      }
    }
  }

  // ---------------------------------------------------------------------------
  // verify()
  // ---------------------------------------------------------------------------

  /**
   * What `verify` reports: `true` exactly when every expected sequence was
   * registered and every registered sequence was expected; otherwise
   * `missingExpected` for the first expected sequence never registered, and
   * only when there is none, `unexpectedMethod` for the first registered
   * sequence never expected. Every copy throws these as `MockError`.
   */
  function VerifyOutcome<M(==), E>(expected: seq<seq<M>>, registered: seq<seq<M>>): (r: Result<bool, Thrown<M, E>>)
    ensures r.Success? <==> AllContained(expected, registered) && AllContained(registered, expected)
    ensures r.Success? ==> r.value
    ensures !AllContained(expected, registered) ==>
              exists i :: FirstMissingAt(expected, registered, i) && r == Failure(AsMockError(MissingExpected(expected[i])))
    ensures AllContained(expected, registered) && !AllContained(registered, expected) ==>
              exists i :: FirstMissingAt(registered, expected, i) && r == Failure(AsMockError(UnexpectedMethod(registered[i])))
  {
    match FirstNotContained(expected, registered)
    case Some(sequence) => Failure(AsMockError(MissingExpected(sequence)))
    case None =>
      match FirstNotContained(registered, expected)
      case Some(sequence) => Failure(AsMockError(UnexpectedMethod(sequence)))
      case None => Success(true)
  }

  /** The verdict depends only on which sequences occur, not on order or multiplicity. */
  lemma VerifyDependsOnlyOnMembership<M, E>(expected: seq<seq<M>>, registered: seq<seq<M>>,
                                                expected': seq<seq<M>>, registered': seq<seq<M>>)
    requires forall x :: x in expected <==> x in expected'
    requires forall x :: x in registered <==> x in registered'
    ensures VerifyOutcome<M, E>(expected, registered).Success? == VerifyOutcome<M, E>(expected', registered').Success?
  {
    assert AllContained(expected, registered) <==> AllContained(expected', registered') by {
      if AllContained(expected, registered) {
        forall i | 0 <= i < |expected'| ensures expected'[i] in registered' {
          assert expected'[i] in expected;
        }
      }
      if AllContained(expected', registered') {
        forall i | 0 <= i < |expected| ensures expected[i] in registered {
          assert expected[i] in expected';
        }
      }
    }
    assert AllContained(registered, expected) <==> AllContained(registered', expected') by {
      if AllContained(registered, expected) {
        forall i | 0 <= i < |registered'| ensures registered'[i] in expected' {
          assert registered'[i] in registered;
        }
      }
      if AllContained(registered', expected') {
        forall i | 0 <= i < |registered| ensures registered[i] in expected {
          assert registered[i] in registered';
        }
      }
    }
  }

  // ---------------------------------------------------------------------------
  // The invariant every operation keeps
  // ---------------------------------------------------------------------------

  /** `key` is a nonempty prefix of some declared expectation sequence. */
  ghost predicate DeclaredPrefix<M>(key: seq<M>, expected: seq<seq<M>>)
    decreases |expected|
  {
    |key| > 0 && |expected| > 0 && (key <= Last(expected) || DeclaredPrefix(key, DropLast(expected)))
  }

  lemma {:induction false} DeclaredPrefixAt<M>(key: seq<M>, expected: seq<seq<M>>, i: int)
    requires 0 <= i < |expected| && |key| > 0 && key <= expected[i]
    ensures DeclaredPrefix(key, expected)
    decreases |expected|
  {
    if i < |expected| - 1 {
      DeclaredPrefixAt(key, DropLast(expected), i);
    }
  }

  lemma {:induction false} DeclaredPrefixWitness<M>(key: seq<M>, expected: seq<seq<M>>) returns (i: int)
    requires DeclaredPrefix(key, expected)
    ensures 0 <= i < |expected| && key <= expected[i]
    decreases |expected|
  {
    if key <= Last(expected) {
      i := |expected| - 1;
    } else {
      i := DeclaredPrefixWitness(key, DropLast(expected));
    }
  }

  /**
   * The invariant of the engine: sequences are never empty, every resolver
   * key lies along a declared sequence, every registered sequence longer
   * than one call lies along a declared sequence (chains are only followed
   * where `expect(…, after:)` built them), and the synchronous copies hold
   * no throwing resolver.
   */
  ghost predicate Consistent<M, T, V, E>(s: State<M, T, V, E>, variant: Variant) {
    && (forall i :: 0 <= i < |s.expected| ==> |s.expected[i]| > 0)
    && (forall key :: key in s.resolvers ==> DeclaredPrefix(key, s.expected))
    && (forall i :: 0 <= i < |s.registered| ==> |s.registered[i]| > 0)
    && (forall i :: 0 <= i < |s.registered| && |s.registered[i]| > 1 ==> DeclaredPrefix(s.registered[i], s.expected))
    && (!variant.AllowsThrowingResolvers() ==> forall key :: key in s.resolvers ==> s.resolvers[key].Returns?)
  }

  lemma DeclaredPrefixPersists<M>(key: seq<M>, before: seq<seq<M>>, after: seq<seq<M>>)
    requires DeclaredPrefix(key, before) && Extends(before, after)
    ensures DeclaredPrefix(key, after)
  {
    var i := DeclaredPrefixWitness(key, before);
    DeclaredPrefixAt(key, after, i);
  }

  lemma EmptyIsConsistent<M, T, V, E>(variant: Variant)
    ensures Consistent(Empty<M, T, V, E>(), variant)
  {
  }

  lemma ExpectPreservesConsistency<M, T, V, E>(
    s: State<M, T, V, E>, variant: Variant, call: M, after: Option<M>, resolver: Resolver<T, V, E>)
    requires Consistent(s, variant)
    requires variant.AllowsThrowingResolvers() || resolver.Returns?
    ensures Consistent(ExpectNext(s, call, after, resolver), variant)
  {
    var t := ExpectNext(s, call, after, resolver);
    ExpectExtends(s, call, after, resolver);
    if t != s {
      var n := |t.expected| - 1;
      assert Last(t.expected) == t.expected[n];
      forall key | key in t.resolvers ensures DeclaredPrefix(key, t.expected) {
        if key == t.expected[n] {
          DeclaredPrefixAt(key, t.expected, n);
        } else {
          DeclaredPrefixPersists(key, s.expected, t.expected);
        }
      }
      forall i | 0 <= i < |t.registered| && |t.registered[i]| > 1 ensures DeclaredPrefix(t.registered[i], t.expected) {
        DeclaredPrefixPersists(t.registered[i], s.expected, t.expected);
      }
    }
  }

  lemma ResolvePreservesConsistency<M, T, V, E>(s: State<M, T, V, E>, variant: Variant, call: M, wanted: T)
    requires Consistent(s, variant)
    ensures Consistent(ResolveNext(s, call, wanted), variant)
  {
    var t := ResolveNext(s, call, wanted);
    var n := |t.registered| - 1;
    assert t.registered[n] == Last(t.registered);
    forall i | 0 <= i < n ensures t.registered[i] == s.registered[i] {
      if Continues(s, call, wanted) {
        assert t.registered[i] == DropLast(t.registered)[i];
      }
    }
    if Continues(s, call, wanted) {
      assert Last(s.registered) + [call] in s.resolvers;
    }
  }

  /** A synchronous engine never lets a resolver's own error reach the caller. */
  lemma SynchronousResolveThrowsOnlyMockErrors<M, T, V, E>(
    s: State<M, T, V, E>, variant: Variant, call: M, wanted: T)
    requires Consistent(s, variant) && !variant.AllowsThrowingResolvers()
    ensures var r := ResolveResult(s, call, wanted, variant);
            r.Failure? ==> r.error == AsMockError(ResolverEmpty) || r.error == AsMockError(InvalidCastType)
  {
    if [call] in s.resolvers {
      assert s.resolvers[[call]].Returns?;
    }
  }
}
