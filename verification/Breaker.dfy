/** The circuit breaker of the exchange log: after enough failed writes in a row, the disk is left
    alone for a while. */
module Breaker {
  import opened Json

  const THRESHOLD: nat := 5
  /** Nanoseconds. */
  const COOLDOWN: int := 30_000_000_000

  datatype State = State(failures: nat, openUntil: Option<int>)

  const FRESH := State(0, None)

  /** One call: the clock when it starts, whether the disk takes the write, and the clock when a
      failure is recorded. */
  datatype Call = Call(start: int, written: bool, recorded: int)

  predicate Suspended(s: State, c: Call) {
    s.openUntil.Some? && c.start < s.openUntil.value
  }

  function Append(s: State, c: Call): State {
    if Suspended(s, c) then s
    else if c.written then FRESH
    else State(s.failures + 1, if s.failures + 1 >= THRESHOLD then Some(c.recorded + COOLDOWN) else None)
  }

  class FileExchangeLog {
    var consecutiveFailures: nat
    var breakerOpenUntil: Option<int>

    ghost function View(): State
      reads this
    {
      State(consecutiveFailures, breakerOpenUntil)
    }

    /** The breaker is open exactly from the fifth failure in a row on. */
    ghost predicate Valid()
      reads this
    {
      breakerOpenUntil.Some? <==> consecutiveFailures >= THRESHOLD
    }

    constructor ()
      ensures Valid() && View() == FRESH
    {
      consecutiveFailures, breakerOpenUntil := 0, None;
    }

    method AppendEntry(c: Call) returns (attempted: bool, ok: bool)
      requires Valid()
      modifies this
      ensures Valid() && View() == Append(old(View()), c)
      ensures attempted <==> !Suspended(old(View()), c)
      ensures ok <==> attempted && c.written
    {
      if breakerOpenUntil.Some? {
        if c.start < breakerOpenUntil.value {
          return false, false;
        }
        breakerOpenUntil := None;
      }
      if !c.written {
        RecordFailure(c.recorded);
        return true, false;
      }
      RecordSuccess();
      return true, true;
    }

    method RecordFailure(now: int)
      requires breakerOpenUntil == None
      modifies this
      ensures consecutiveFailures == old(consecutiveFailures) + 1
      ensures breakerOpenUntil == if consecutiveFailures >= THRESHOLD then Some(now + COOLDOWN) else None
    {
      consecutiveFailures := consecutiveFailures + 1;
      if consecutiveFailures >= THRESHOLD && breakerOpenUntil.None? {
        breakerOpenUntil := Some(now + COOLDOWN);
      }
    }

    method RecordSuccess()
      modifies this
      ensures View() == FRESH
    {
      consecutiveFailures := 0;
      breakerOpenUntil := None;
    }
  }

  // ----- runs -----

  function Run(calls: seq<Call>): State {
    if calls == [] then FRESH else Append(Run(calls[..|calls| - 1]), calls[|calls| - 1])
  }

  /** The calls that touch the disk. */
  function Attempts(calls: seq<Call>): seq<Call> {
    if calls == [] then []
    else
      var n := |calls| - 1;
      Attempts(calls[..n]) + if Suspended(Run(calls[..n]), calls[n]) then [] else [calls[n]]
  }

  /** The clock does not run backwards during a call. */
  predicate Monotone(calls: seq<Call>) {
    forall i | 0 <= i < |calls| :: calls[i].start <= calls[i].recorded
  }

  /** The breaker is open exactly from the fifth failure in a row on. */
  lemma {:induction false} OpenAfterThreshold(calls: seq<Call>)
    ensures Run(calls).openUntil.Some? <==> Run(calls).failures >= THRESHOLD
    decreases |calls|
  {
    if calls != [] { OpenAfterThreshold(calls[..|calls| - 1]); }
  }

  /** After a run without a successful write: the failures are the attempts, and from the fifth on
      attempts are a cooldown apart. */
  ghost predicate Spaced(s: State, attempts: seq<Call>) {
    && s.failures == |attempts|
    && (s.openUntil.Some? <==> |attempts| >= THRESHOLD)
    && (|attempts| >= THRESHOLD ==> s.openUntil == Some(attempts[|attempts| - 1].recorded + COOLDOWN))
    && (forall k | THRESHOLD <= k < |attempts| :: attempts[k].start >= attempts[k - 1].recorded + COOLDOWN)
  }

  lemma {:induction false} FailingRun(calls: seq<Call>)
    requires forall c | c in calls :: !c.written
    ensures Spaced(Run(calls), Attempts(calls))
    decreases |calls|
  {
    if calls != [] {
      var n := |calls| - 1;
      assert calls[n] in calls;
      FailingRun(calls[..n]);
    }
  }

  lemma {:induction false} AttemptsIn(calls: seq<Call>, c: Call)
    requires c in Attempts(calls)
    ensures c in calls
    decreases |calls|
  {
    var n := |calls| - 1;
    if c in Attempts(calls[..n]) { AttemptsIn(calls[..n], c); }
  }

  lemma {:induction false} CooldownsAddUp(attempts: seq<Call>, k: nat)
    requires THRESHOLD <= |attempts| && THRESHOLD - 1 <= k < |attempts|
    requires forall c | c in attempts :: c.start <= c.recorded
    requires forall j | THRESHOLD <= j < |attempts| :: attempts[j].start >= attempts[j - 1].recorded + COOLDOWN
    ensures attempts[k].recorded >= attempts[THRESHOLD - 1].recorded + (k - (THRESHOLD - 1)) * COOLDOWN
    ensures k >= THRESHOLD ==> attempts[k].start >= attempts[THRESHOLD - 1].recorded + (k - (THRESHOLD - 1)) * COOLDOWN
    decreases k
  {
    assert attempts[k] in attempts;
    if k > THRESHOLD - 1 { CooldownsAddUp(attempts, k - 1); }
  }

  /** The attempts started by a time. */
  function StartedBy(attempts: seq<Call>, time: int): nat {
    if attempts == [] then 0
    else StartedBy(attempts[..|attempts| - 1], time) + if attempts[|attempts| - 1].start <= time then 1 else 0
  }

  lemma {:induction false} StartedAtMost(attempts: seq<Call>, time: int, m: nat)
    requires forall k | m <= k < |attempts| :: attempts[k].start > time
    ensures StartedBy(attempts, time) <= m
    decreases |attempts|
  {
    if attempts != [] {
      if |attempts| > m { StartedAtMost(attempts[..|attempts| - 1], time, m); } else { StartedFew(attempts, time); }
    }
  }

  lemma {:induction false} StartedFew(attempts: seq<Call>, time: int)
    ensures StartedBy(attempts, time) <= |attempts|
    decreases |attempts|
  {
    if attempts != [] { StartedFew(attempts[..|attempts| - 1], time); }
  }

  /** In any run without a successful write, by any time from the fifth failure on at most
      5 + floor((time - fifth failure) / cooldown) attempts have been made. */
  lemma {:induction false} AttemptsBounded(calls: seq<Call>, time: int)
    requires Monotone(calls) && forall c | c in calls :: !c.written
    requires |Attempts(calls)| >= THRESHOLD && time >= Attempts(calls)[THRESHOLD - 1].recorded
    ensures StartedBy(Attempts(calls), time) <= THRESHOLD + (time - Attempts(calls)[THRESHOLD - 1].recorded) / COOLDOWN
  {
    FailingRun(calls);
    var attempts := Attempts(calls);
    var fifth := attempts[THRESHOLD - 1].recorded;
    var q := (time - fifth) / COOLDOWN;
    forall c | c in attempts ensures c.start <= c.recorded {
      AttemptsIn(calls, c);
    }
    forall k | THRESHOLD + q <= k < |attempts| ensures attempts[k].start > time {
      CooldownsAddUp(attempts, k);
      assert (k - (THRESHOLD - 1)) * COOLDOWN >= (q + 1) * COOLDOWN;
    }
    StartedAtMost(attempts, time, THRESHOLD + q);
  }

  /** The failures at the end of a list of attempts, since the last success. */
  function FailuresInRow(attempts: seq<Call>): nat {
    if attempts == [] || attempts[|attempts| - 1].written then 0
    else 1 + FailuresInRow(attempts[..|attempts| - 1])
  }

  /** After any calls, successful ones among them: the next one touches the disk exactly if fewer than five attempts
      in a row have failed, or thirty seconds have passed since the last of them was recorded. */
  lemma {:induction false} AttemptedExactly(calls: seq<Call>, c: Call)
    ensures var attempts := Attempts(calls);
            Attempts(calls + [c]) == attempts + [c]
            <==> || FailuresInRow(attempts) < 5
                 || (attempts != [] && c.start >= attempts[|attempts| - 1].recorded + 30_000_000_000)
  {
    assert (calls + [c])[..|calls|] == calls;
    RunMeans(calls);
    var attempts := Attempts(calls);
    assert |attempts + [c]| == |attempts| + 1;
  }

  lemma {:induction false} RowStep(attempts: seq<Call>, c: Call)
    ensures FailuresInRow(attempts + [c]) == if c.written then 0 else 1 + FailuresInRow(attempts)
  {
    assert (attempts + [c])[..|attempts|] == attempts;
  }

  lemma {:induction false} RunMeans(calls: seq<Call>)
    ensures var s, attempts := Run(calls), Attempts(calls);
            && s.failures == FailuresInRow(attempts)
            && (s.failures > 0 ==> attempts != [])
            && s.openUntil
                 == if s.failures >= 5 then Some(attempts[|attempts| - 1].recorded + 30_000_000_000) else None
    decreases |calls|
  {
    if calls != [] {
      var n := |calls| - 1;
      RunMeans(calls[..n]);
      hide FailuresInRow;
      var before, attempts := Run(calls[..n]), Attempts(calls[..n]);
      RowStep(attempts, calls[n]);
      if Suspended(before, calls[n]) {
        assert Run(calls) == before && Attempts(calls) == attempts;
      } else {
        assert Attempts(calls) == attempts + [calls[n]];
      }
    }
  }
}
