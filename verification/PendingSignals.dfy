/** What is registered and pending after any calls and receives, told from the calls and receives alone. */
module PendingSignals {
  import opened Prelude
  import opened ControllerState
  import opened WorkerManager

  /** Some marked action before `k` has no clearing action after it. */
  ghost predicate Since(mark: nat -> bool, clear: nat -> bool, k: nat) {
    exists j: nat :: j < k && mark(j) && forall i: nat :: j < i < k ==> !clear(i)
  }

  lemma {:induction false} SinceStep(mark: nat -> bool, clear: nat -> bool, k: nat)
    ensures Since(mark, clear, k + 1) <==> mark(k) || (!clear(k) && Since(mark, clear, k))
  {
    if Since(mark, clear, k) && !clear(k) {
      var j: nat :| j < k && mark(j) && forall i: nat :: j < i < k ==> !clear(i);
      assert forall i: nat :: j < i < k + 1 ==> !clear(i);
    }
    if Since(mark, clear, k + 1) && !mark(k) {
      var j: nat :| j < k + 1 && mark(j) && forall i: nat :: j < i < k + 1 ==> !clear(i);
      assert j < k;
    }
  }

  // ---------------------------------------------------------------- the calls and receives

  function At(acts: seq<Action>, p: Action -> bool): nat -> bool { (j: nat) => j < |acts| && p(acts[j]) }

  function Starts(key: Key): Action -> bool { (a: Action) => a.Ensure? && a.key == key }

  function Stops(key: Key): Action -> bool { (a: Action) => a == Action.Stop(key) }

  /** The key has a worker: it was asked for, and not stopped since. */
  ghost predicate InService(acts: seq<Action>, key: Key, k: nat) {
    Since(At(acts, Starts(key)), At(acts, Stops(key)), k)
  }

  /** A call that asks the key's worker to reclassify. */
  ghost function Requests(acts: seq<Action>, key: Key): nat -> bool {
    (j: nat) => j < |acts| && acts[j] == Action.SignalReclassify(key) && InService(acts, key, j)
  }

  function Answers(key: Key): Action -> bool { (a: Action) => a in {ReceiveReclassify(key), Action.Stop(key)} }

  /** A call that reports revision `q` of the key's Deployment to its worker. */
  ghost function Reports(acts: seq<Action>, key: Key, q: string): nat -> bool {
    (j: nat) => j < |acts| && acts[j] == Observe(key, q) && InService(acts, key, j)
  }

  function Renews(key: Key): Action -> bool { (a: Action) => (a.Observe? && a.key == key) || a == Action.Stop(key) }

  /** `q` is the revision the key's worker was last told of. */
  ghost predicate LastTold(acts: seq<Action>, key: Key, q: string, k: nat) {
    Since(Reports(acts, key, q), At(acts, Renews(key)), k)
  }

  /** A call that reports a revision other than the one last told. */
  ghost function Rollouts(acts: seq<Action>, key: Key): nat -> bool {
    (j: nat) => j < |acts| && acts[j].Observe? && acts[j].key == key
                && exists q :: q != acts[j].revision && LastTold(acts, key, q, j)
  }

  function Takes(key: Key): Action -> bool { (a: Action) => a in {ReceiveGeneration(key), Action.Stop(key)} }

  // ---------------------------------------------------------------- one action

  predicate RecordedIn(s: State, key: Key, q: string) { key in s.workers && s.workers[key].revision == Some(q) }

  predicate ReclassifyIn(s: State, key: Key) { key in s.workers && s.workers[key].reclassify.Some? }

  predicate GenerationIn(s: State, key: Key) { key in s.workers && s.workers[key].generation.Some? }

  /** The action asks a registered worker to reclassify. */
  predicate Asks(s: State, a: Action, key: Key) { a == Action.SignalReclassify(key) && key in s.workers }

  /** The action tells a registered worker of revision `q`. */
  predicate Tells(s: State, a: Action, key: Key, q: string) { a == Observe(key, q) && key in s.workers }

  /** The action tells a worker of a revision other than the one on record. */
  ghost predicate RollsOut(s: State, a: Action, key: Key) {
    a.Observe? && a.key == key && exists q :: q != a.revision && RecordedIn(s, key, q)
  }

  lemma {:induction false} NextInService(s: State, a: Action, key: Key)
    ensures key in Next(s, a).workers <==> Starts(key)(a) || (!Stops(key)(a) && key in s.workers)
  {}

  lemma {:induction false} NextReclassify(s: State, a: Action, key: Key)
    ensures ReclassifyIn(Next(s, a), key) <==> Asks(s, a, key) || (!Answers(key)(a) && ReclassifyIn(s, key))
  {}

  lemma {:induction false} NextRecorded(s: State, a: Action, key: Key, q: string)
    ensures RecordedIn(Next(s, a), key, q)
            <==> Tells(s, a, key, q) || (!Renews(key)(a) && RecordedIn(s, key, q))
  {}

  lemma {:induction false} NextGeneration(s: State, a: Action, key: Key)
    ensures GenerationIn(Next(s, a), key) <==> RollsOut(s, a, key) || (!Takes(key)(a) && GenerationIn(s, key))
  {
    if a.Observe? && IsRollout(s, key, a.revision) {
      assert RecordedIn(s, key, s.workers[key].revision.value);
    }
  }

  // ---------------------------------------------------------------- over traces

  /** A key is registered exactly when it was asked for and not stopped since. */
  lemma {:induction false} RegisteredWhen(ss: seq<State>, acts: seq<Action>, k: nat, key: Key)
    requires IsTrace(ss, acts) && k < |ss|
    ensures key in ss[k].workers <==> InService(acts, key, k)
  {
    if k > 0 {
      RegisteredWhen(ss, acts, k - 1, key);
      assert ss[k] == Next(ss[k - 1], acts[k - 1]);
      NextInService(ss[k - 1], acts[k - 1], key);
      SinceStep(At(acts, Starts(key)), At(acts, Stops(key)), k - 1);
    }
  }

  lemma {:induction false} RequestWhen(ss: seq<State>, acts: seq<Action>, k: nat, key: Key)
    requires IsTrace(ss, acts) && k < |acts|
    ensures Requests(acts, key)(k) <==> Asks(ss[k], acts[k], key)
    ensures At(acts, Answers(key))(k) <==> Answers(key)(acts[k])
  {
    RegisteredWhen(ss, acts, k, key);
  }

  /** A registered worker has a reclassification pending exactly when one was asked for, while it was registered, and
      neither received nor stopped since. */
  lemma {:induction false} ReclassifyPendingWhen(ss: seq<State>, acts: seq<Action>, k: nat, key: Key)
    requires IsTrace(ss, acts) && k < |ss|
    ensures ReclassifyIn(ss[k], key) <==> Since(Requests(acts, key), At(acts, Answers(key)), k)
  {
    if k > 0 {
      var j: nat := k - 1;
      ReclassifyPendingWhen(ss, acts, j, key);
      RequestWhen(ss, acts, j, key);
      assert ss[j + 1] == Next(ss[j], acts[j]);
      NextReclassify(ss[j], acts[j], key);
      SinceStep(Requests(acts, key), At(acts, Answers(key)), j);
    }
  }

  lemma {:induction false} ReportWhen(ss: seq<State>, acts: seq<Action>, k: nat, key: Key, q: string)
    requires IsTrace(ss, acts) && k < |acts|
    ensures Reports(acts, key, q)(k) <==> Tells(ss[k], acts[k], key, q)
    ensures At(acts, Renews(key))(k) <==> Renews(key)(acts[k])
  {
    RegisteredWhen(ss, acts, k, key);
  }

  /** The revision on record is the last one the worker was told of. */
  lemma {:induction false} RecordedWhen(ss: seq<State>, acts: seq<Action>, k: nat, key: Key, q: string)
    requires IsTrace(ss, acts) && k < |ss|
    ensures RecordedIn(ss[k], key, q) <==> LastTold(acts, key, q, k)
  {
    if k > 0 {
      var j: nat := k - 1;
      RecordedWhen(ss, acts, j, key, q);
      ReportWhen(ss, acts, j, key, q);
      assert ss[j + 1] == Next(ss[j], acts[j]);
      NextRecorded(ss[j], acts[j], key, q);
      SinceStep(Reports(acts, key, q), At(acts, Renews(key)), j);
    }
  }

  lemma {:induction false} RolloutWhen(ss: seq<State>, acts: seq<Action>, k: nat, key: Key)
    requires IsTrace(ss, acts) && k < |acts|
    ensures Rollouts(acts, key)(k) <==> RollsOut(ss[k], acts[k], key)
    ensures At(acts, Takes(key))(k) <==> Takes(key)(acts[k])
  {
    forall q ensures RecordedIn(ss[k], key, q) <==> LastTold(acts, key, q, k) {
      RecordedWhen(ss, acts, k, key, q);
    }
  }

  /** A registered worker has a rollout pending exactly when it was told of a revision other than the one it had been
      told of before, and neither received the signal nor was stopped since. */
  lemma {:induction false} RolloutPendingWhen(ss: seq<State>, acts: seq<Action>, k: nat, key: Key)
    requires IsTrace(ss, acts) && k < |ss|
    ensures GenerationIn(ss[k], key) <==> Since(Rollouts(acts, key), At(acts, Takes(key)), k)
  {
    if k > 0 {
      var j: nat := k - 1;
      RolloutPendingWhen(ss, acts, j, key);
      RolloutWhen(ss, acts, j, key);
      assert ss[j + 1] == Next(ss[j], acts[j]);
      NextGeneration(ss[j], acts[j], key);
      SinceStep(Rollouts(acts, key), At(acts, Takes(key)), j);
    }
  }
}
