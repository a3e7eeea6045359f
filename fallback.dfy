/**
 * `FallbackConnector.lookup_tx` as a combinator over the outcomes of an ordered
 * list of lookups: the first truthy result wins, otherwise one aggregate
 * InvalidTransactionError carries every raised exception in attempt order.
 */
module Fallback {
  import opened Wrappers
  import opened Errors
  import opened Records

  /** What one connector's `lookup_tx` did: returned a value or raised. */
  type Attempt = Result<LookupValue, Error>

  /** `if response: return response` */
  predicate Succeeded(a: Attempt) {
    a.Ok? && TruthyValue(a.value)
  }

  /** The position of the first attempt that succeeded, if any. */
  function FirstSuccess(attempts: seq<Attempt>): (k: Option<nat>)
    ensures k.Some? ==>
      && k.value < |attempts| && Succeeded(attempts[k.value])
      && forall j | 0 <= j < k.value :: !Succeeded(attempts[j])
    ensures k.None? ==> forall j | 0 <= j < |attempts| :: !Succeeded(attempts[j])
  {
    if attempts == [] then None
    else if Succeeded(attempts[0]) then Some(0)
    else
      match FirstSuccess(attempts[1..])
      case None => None
      case Some(k) => Some(k + 1)
  }

  /** The `exceptions` list after the given attempts. */
  function Raised(attempts: seq<Attempt>): (r: seq<Error>)
    ensures |r| <= |attempts|
    ensures forall e | e in r :: Err(e) in attempts
  {
    if attempts == [] then []
    else
      var last := attempts[|attempts| - 1];
      Raised(attempts[..|attempts| - 1]) + (if last.Err? then [last.error] else [])
  }

  /** What `lookup_tx` returns or raises. */
  function FallbackResult(attempts: seq<Attempt>): (r: Attempt)
    // a value is returned exactly when some lookup succeeded, and it is one of theirs
    ensures r.Ok? <==> exists k | 0 <= k < |attempts| :: Succeeded(attempts[k])
    ensures r.Ok? ==> TruthyValue(r.value) && r in attempts
    // otherwise the one exception raised is the aggregate
    ensures r.Err? ==> r.error.InvalidTransaction? && r.error.reason.AllFailed?
  {
    match FirstSuccess(attempts)
    case Some(k) => attempts[k]
    case None => Err(InvalidTransaction(AllFailed(Raised(attempts))))
  }

  /** How many connectors `lookup_tx` runs: up to and including the first success. */
  function AttemptsMade(attempts: seq<Attempt>): (n: nat)
    ensures n <= |attempts|
  {
    match FirstSuccess(attempts)
    case Some(k) => k + 1
    case None => |attempts|
  }

  /**
   * Short-circuit: the first success is the result, and the outcomes of the
   * lookups after it (`later`, whatever they are) cannot change it.
   */
  lemma FirstSuccessWins(attempts: seq<Attempt>, k: nat, later: seq<Attempt>)
    requires k < |attempts| && Succeeded(attempts[k])
    requires forall j | 0 <= j < k :: !Succeeded(attempts[j])
    ensures FallbackResult(attempts) == attempts[k]
    ensures AttemptsMade(attempts) == k + 1
    ensures FallbackResult(attempts[..k + 1] + later) == attempts[k]
  {
    var prefix := attempts[..k + 1] + later;
    assert forall j | 0 <= j <= k :: prefix[j] == attempts[j];
    match FirstSuccess(attempts) {
      case None =>
      case Some(i) => assert i == k by { if i < k { } else if i > k { } }
    }
    match FirstSuccess(prefix) {
      case None =>
      case Some(i) => assert i == k by { if i < k { } else if i > k { } }
    }
  }

  /** Total failure: one aggregate error, after every connector was tried. */
  lemma NoSuccessAggregates(attempts: seq<Attempt>)
    requires forall j | 0 <= j < |attempts| :: !Succeeded(attempts[j])
    ensures FallbackResult(attempts) == Err(InvalidTransaction(AllFailed(Raised(attempts))))
    ensures AttemptsMade(attempts) == |attempts|
  {
  }

  /** `idx` lists, in increasing order, exactly the positions of the attempts that raised. */
  ghost predicate RaisedPositions(attempts: seq<Attempt>, idx: seq<nat>) {
    && (forall j | 0 <= j < |idx| :: idx[j] < |attempts| && attempts[idx[j]].Err?)
    && (forall j, j' | 0 <= j < j' < |idx| :: idx[j] < idx[j'])
    && (forall i | 0 <= i < |attempts| && attempts[i].Err? :: i in idx)
  }

  /** `idx` lists the attempts that raised, and `Raised` holds their exceptions in that order. */
  ghost predicate ListsRaised(attempts: seq<Attempt>, idx: seq<nat>) {
    && RaisedPositions(attempts, idx)
    && |Raised(attempts)| == |idx|
    && forall j | 0 <= j < |idx| :: Raised(attempts)[j] == attempts[idx[j]].error
  }

  lemma ExtendRaisedPositions(init: seq<Attempt>, last: Attempt, idx: seq<nat>)
    requires RaisedPositions(init, idx)
    ensures RaisedPositions(init + [last], if last.Err? then idx + [|init|] else idx)
  {
    var attempts := init + [last];
    var idx' := if last.Err? then idx + [|init|] else idx;
    forall j | 0 <= j < |idx'| ensures idx'[j] < |attempts| && attempts[idx'[j]].Err? {
      if j < |idx| {
        assert idx'[j] == idx[j] && attempts[idx[j]] == init[idx[j]];
      }
    }
    forall i | 0 <= i < |attempts| && attempts[i].Err? ensures i in idx' {
      if i < |init| {
        assert attempts[i] == init[i];
      }
    }
  }

  lemma ExtendListsRaised(init: seq<Attempt>, last: Attempt, idx: seq<nat>)
    requires ListsRaised(init, idx)
    ensures ListsRaised(init + [last], if last.Err? then idx + [|init|] else idx)
  {
    var attempts := init + [last];
    var idx' := if last.Err? then idx + [|init|] else idx;
    var before := Raised(init);
    var tail := if last.Err? then [last.error] else [];
    assert attempts[..|init|] == init;
    var raised := Raised(attempts);
    assert raised == before + tail;
    assert |raised| == |idx'|;
    ExtendRaisedPositions(init, last, idx);
    forall j | 0 <= j < |idx'| ensures raised[j] == attempts[idx'[j]].error {
      if j < |idx| {
        assert raised[j] == before[j] && idx'[j] == idx[j];
        assert attempts[idx[j]] == init[idx[j]];
      } else {
        assert raised[j] == last.error && idx'[j] == |init|;
      }
    }
  }

  /**
   * The collected exceptions are those of the attempts that raised, in attempt
   * order; an attempt that returned a falsy value adds nothing.
   */
  lemma {:induction false} RaisedInAttemptOrder(attempts: seq<Attempt>)
    ensures exists idx :: ListsRaised(attempts, idx)
  {
    if attempts == [] {
      assert ListsRaised(attempts, []);
    } else {
      var n := |attempts| - 1;
      var init, last := attempts[..n], attempts[n];
      assert attempts == init + [last];
      RaisedInAttemptOrder(init);
      var idx: seq<nat> :| ListsRaised(init, idx);
      ExtendListsRaised(init, last, idx);
      assert ListsRaised(attempts, if last.Err? then idx + [|init|] else idx);
    }
  }

  /** When every lookup raised, the aggregate holds one exception per connector, in order. */
  lemma {:induction false} AllRaised(attempts: seq<Attempt>)
    requires forall i | 0 <= i < |attempts| :: attempts[i].Err?
    ensures |Raised(attempts)| == |attempts|
    ensures forall i | 0 <= i < |attempts| :: Raised(attempts)[i] == attempts[i].error
  {
    if attempts != [] {
      var n := |attempts| - 1;
      AllRaised(attempts[..n]);
    }
  }
}
