/** The classifier manager: one worker per resource, reclassification and rollout signals. */
module WorkerManager {
  import opened Prelude
  import opened ControllerState
  import opened Channels
  import Api

  // ---------------------------------------------------------------- transitions on values

  /** What a worker is started with: its Deployment and the replica bounds its step sizes respect. */
  datatype Settings = Settings(deployment: string, minReplicas: int32, maxReplicas: int32)

  function SettingsOf(spec: Api.Spec): Settings {
    Settings(spec.targetName, Api.MinReplicasOf(spec), Api.MaxReplicasOf(spec))
  }

  /** A registered worker: which start launched it and with what, the revision last observed, and its pending
      signals. */
  datatype Handle = Handle(
    id: nat, settings: Settings, revision: Option<string>, reclassify: Option<()>, generation: Option<()>)

  /** `started[id]` is the key worker `id` was launched for. */
  datatype State = State(workers: map<Key, Handle>, started: seq<Key>, cancelled: set<nat>)

  /** The manager's calls, and the worker's receives. */
  datatype Action =
    | Ensure(key: Key, spec: Api.Spec)
    | Stop(key: Key)
    | SignalReclassify(key: Key)
    | Observe(key: Key, revision: string)
    | ReceiveReclassify(key: Key)
    | ReceiveGeneration(key: Key)

  const INITIAL := State(map[], [], {})

  /** Whether an observation is a rollout: a revision is on record and differs. */
  predicate IsRollout(s: State, key: Key, revision: string) {
    key in s.workers && s.workers[key].revision.Some? && s.workers[key].revision.value != revision
  }

  function Next(s: State, a: Action): State {
    if a.Ensure? then
      if a.key in s.workers then s
      else
        State(s.workers[a.key := Handle(|s.started|, SettingsOf(a.spec), None, None, None)], s.started + [a.key],
              s.cancelled)
    else if a.key !in s.workers then s
    else
      var h := s.workers[a.key];
      match a
      case Ensure(_, _) => s
      case Stop(key) => State(s.workers - {key}, s.started, s.cancelled + {h.id})
      case SignalReclassify(key) => s.(workers := s.workers[key := h.(reclassify := Some(()))])
      case Observe(key, revision) =>
        var generation := if IsRollout(s, key, revision) then Some(()) else h.generation;
        s.(workers := s.workers[key := h.(revision := Some(revision), generation := generation)])
      case ReceiveReclassify(key) => s.(workers := s.workers[key := h.(reclassify := None)])
      case ReceiveGeneration(key) => s.(workers := s.workers[key := h.(generation := None)])
  }

  // ---------------------------------------------------------------- the manager object

  class WorkerHandle {
    const id: nat
    const settings: Settings
    const reclassifyCh: Channel<()>
    const generationCh: Channel<()>
    var lastDeploymentRevision: string
    var revisionInitialized: bool

    constructor (id: nat, settings: Settings)
      ensures this.id == id && fresh(reclassifyCh) && fresh(generationCh) && reclassifyCh != generationCh
      ensures View() == Handle(id, settings, None, None, None)
    {
      this.id, this.settings := id, settings;
      reclassifyCh := new Channel();
      generationCh := new Channel();
      lastDeploymentRevision, revisionInitialized := "", false;
    }

    ghost function View(): Handle
      reads this, reclassifyCh, generationCh
    {
      Handle(id, settings, if revisionInitialized then Some(lastDeploymentRevision) else None,
             reclassifyCh.slot, generationCh.slot)
    }

    /** The first revision only sets the baseline; later ones signal when they differ from the last. */
    method Observe(revision: string) returns (signalled: bool)
      requires reclassifyCh != generationCh
      modifies this, generationCh
      ensures var h := old(View());
              && signalled == (h.revision.Some? && h.revision.value != revision)
              && View() == h.(revision := Some(revision), generation := if signalled then Some(()) else h.generation)
    {
      if !revisionInitialized {
        lastDeploymentRevision := revision;
        revisionInitialized := true;
        return false;
      }
      if lastDeploymentRevision == revision {
        return false;
      }
      lastDeploymentRevision := revision;
      DropAndPush(generationCh);
      return true;
    }
  }

  class Manager {
    var workers: map<Key, WorkerHandle>
    /** Goroutines launched and contexts cancelled so far. */
    var started: seq<Key>
    var cancelled: set<nat>

    ghost function Objects(): set<object>
      reads this
    {
      (set k | k in workers :: workers[k] as object)
      + (set k | k in workers :: workers[k].reclassifyCh as object)
      + (set k | k in workers :: workers[k].generationCh as object)
    }

    /** Handles and their channels are shared by no two keys. */
    ghost predicate Valid()
      reads this
    {
      && (forall k :: k in workers ==> workers[k].reclassifyCh != workers[k].generationCh)
      && (forall j, k :: j in workers && k in workers && j != k ==>
            && workers[j] != workers[k]
            && workers[j].reclassifyCh != workers[k].reclassifyCh
            && workers[j].generationCh != workers[k].generationCh
            && workers[j].reclassifyCh != workers[k].generationCh)
    }

    ghost function HandleOf(key: Key): Option<Handle>
      reads this, Objects()
    {
      if key in workers then Some(workers[key].View()) else None
    }

    ghost predicate Represents(s: State)
      reads this, Objects()
    {
      && Valid()
      && started == s.started && cancelled == s.cancelled
      && forall k :: HandleOf(k) == if k in s.workers then Some(s.workers[k]) else None
    }

    constructor ()
      ensures Represents(INITIAL)
    {
      workers, started, cancelled := map[], [], {};
    }

    static method Capture(spec: Api.Spec) returns (settings: Settings)
      ensures settings == SettingsOf(spec)
    {
      var minReplicas: int32, maxReplicas: int32 := 2, 10;
      if spec.minReplicas.Some? {
        minReplicas := spec.minReplicas.value;
      }
      if spec.maxReplicas.Some? {
        maxReplicas := spec.maxReplicas.value;
      }
      settings := Settings(spec.targetName, minReplicas, maxReplicas);
    }

    method Ensure(key: Key, spec: Api.Spec, ghost s: State)
      requires Represents(s)
      modifies this
      ensures Represents(Next(s, Action.Ensure(key, spec)))
    {
      assert HandleOf(key).Some? <==> key in s.workers;
      if key in workers {
        return;
      }
      var settings := Capture(spec);
      var h := new WorkerHandle(|started|, settings);
      workers := workers[key := h];
      started := started + [key];
      assert forall k :: k != key ==> HandleOf(k) == old(HandleOf(k));
      assert HandleOf(key) == Some(h.View());
    }

    method Stop(key: Key, ghost s: State)
      requires Represents(s)
      modifies this
      ensures Represents(Next(s, Action.Stop(key)))
    {
      assert HandleOf(key).Some? <==> key in s.workers;
      if key !in workers {
        return;
      }
      cancelled := cancelled + {workers[key].id};
      workers := workers - {key};
    }

    method SignalReclassify(key: Key, ghost s: State)
      requires Represents(s)
      modifies Objects()
      ensures Represents(Next(s, Action.SignalReclassify(key)))
    {
      assert HandleOf(key).Some? <==> key in s.workers;
      if key !in workers {
        return;
      }
      DropAndPush(workers[key].reclassifyCh);
    }

    /** True exactly when a rollout signal was emitted. */
    method ObserveDeploymentRevision(key: Key, revision: string, ghost s: State) returns (signalled: bool)
      requires Represents(s)
      modifies Objects()
      ensures Represents(Next(s, Observe(key, revision)))
      ensures signalled == IsRollout(s, key, revision)
    {
      assert HandleOf(key).Some? <==> key in s.workers;
      if key !in workers {
        return false;
      }
      signalled := workers[key].Observe(revision);
      assert forall k :: k != key ==> HandleOf(k) == old(HandleOf(k));
    }
  }

  // ---------------------------------------------------------------- traces

  ghost predicate IsTrace(ss: seq<State>, acts: seq<Action>) {
    && |ss| == |acts| + 1
    && ss[0] == INITIAL
    && forall k :: 0 <= k < |acts| ==> ss[k + 1] == Next(ss[k], acts[k])
  }

  /** A worker that was started and never cancelled. */
  predicate Live(s: State, id: int) { 0 <= id < |s.started| && id !in s.cancelled }

  /** Registered workers are exactly the live ones, under their own key; only started ones were cancelled. */
  ghost predicate Registered(s: State) {
    && (forall id :: id in s.cancelled ==> id < |s.started|)
    && (forall k :: k in s.workers ==> Live(s, s.workers[k].id) && s.started[s.workers[k].id] == k)
    && (forall id :: Live(s, id) ==> s.started[id] in s.workers && s.workers[s.started[id]].id == id)
  }

  lemma {:induction false} StepRegisters(s: State, a: Action)
    requires Registered(s)
    ensures Registered(Next(s, a))
  {
    var s' := Next(s, a);
    forall k | k in s'.workers ensures Live(s', s'.workers[k].id) && s'.started[s'.workers[k].id] == k {
      if k in s.workers && a.key in s.workers && a.key != k {
        assert s.started[s.workers[k].id] != s.started[s.workers[a.key].id];
      }
    }
    forall id | Live(s', id) ensures s'.started[id] in s'.workers && s'.workers[s'.started[id]].id == id {
      if id < |s.started| {
        assert Live(s, id);
      }
    }
  }

  /** Worker lifecycle: after any calls and receives, a worker is running uncancelled exactly when it is the one
      registered for its key, so no key ever has two and none is forgotten. */
  lemma {:induction false} OneLiveWorkerPerKey(ss: seq<State>, acts: seq<Action>, k: nat)
    requires IsTrace(ss, acts) && k < |ss|
    ensures Registered(ss[k])
    ensures forall i, j :: Live(ss[k], i) && Live(ss[k], j) && ss[k].started[i] == ss[k].started[j] ==> i == j
  {
    if k > 0 {
      OneLiveWorkerPerKey(ss, acts, k - 1);
      assert ss[k] == Next(ss[k - 1], acts[k - 1]);
      StepRegisters(ss[k - 1], acts[k - 1]);
    }
  }

  /** Settings are those of the start: every registered worker still has what the call that started it was given,
      however the spec was edited and passed in since. */
  lemma {:induction false} SettingsOfTheStart(ss: seq<State>, acts: seq<Action>, k: nat, key: Key) returns (a: nat)
    requires IsTrace(ss, acts) && k < |ss| && key in ss[k].workers
    ensures a < k && acts[a].Ensure? && acts[a].key == key && key !in ss[a].workers
    ensures ss[k].workers[key].id == |ss[a].started|
    ensures var got, spec := ss[k].workers[key].settings, acts[a].spec;
            && got.deployment == spec.targetName
            && got.minReplicas == (if spec.minReplicas.Some? then spec.minReplicas.value else 2)
            && got.maxReplicas == (if spec.maxReplicas.Some? then spec.maxReplicas.value else 10)
    ensures forall j :: a < j < k ==> acts[j] != Action.Stop(key)
  {
    assert k > 0;
    var j: nat := k - 1;
    assert ss[k] == Next(ss[j], acts[j]);
    if key in ss[j].workers {
      a := SettingsOfTheStart(ss, acts, j, key);
    } else {
      a := j;
    }
  }

  /** Revisions observed for a key from `a` to `b`. */
  function Revisions(acts: seq<Action>, key: Key, a: nat, b: nat): seq<string>
    requires a <= b <= |acts|
    decreases b
  {
    if a == b then []
    else Revisions(acts, key, a, b - 1)
         + (if acts[b - 1].Observe? && acts[b - 1].key == key then [acts[b - 1].revision] else [])
  }

  /** Adjacent unequal pairs. */
  function Changes(revisions: seq<string>): nat {
    if |revisions| < 2 then 0
    else Changes(revisions[..|revisions| - 1])
         + (if revisions[|revisions| - 2] != revisions[|revisions| - 1] then 1 else 0)
  }

  /** Rollout signals emitted for a key from `a` to `b`. */
  function Signals(ss: seq<State>, acts: seq<Action>, key: Key, a: nat, b: nat): nat
    requires a <= b <= |acts| < |ss|
    decreases b
  {
    if a == b then 0
    else Signals(ss, acts, key, a, b - 1)
         + (if acts[b - 1].Observe? && acts[b - 1].key == key && IsRollout(ss[b - 1], key, acts[b - 1].revision)
            then 1 else 0)
  }

  function LastOf(revisions: seq<string>): Option<string> {
    if revisions == [] then None else Some(revisions[|revisions| - 1])
  }

  lemma {:induction false} ChangesAppend(revisions: seq<string>, r: string)
    ensures Changes(revisions + [r])
         == Changes(revisions) + (if LastOf(revisions).Some? && LastOf(revisions).value != r then 1 else 0)
  {
    assert (revisions + [r])[..|revisions|] == revisions;
  }

  lemma {:induction false} StepRevision(s: State, a: Action, key: Key)
    requires key in s.workers && a != Action.Stop(key)
    ensures key in Next(s, a).workers
    ensures Next(s, a).workers[key].revision
         == if a.Observe? && a.key == key then Some(a.revision) else s.workers[key].revision
  {}

  /** The bookkeeping of one key: signals so far are the changes so far, and the last revision is on record. */
  ghost predicate Counted(ss: seq<State>, acts: seq<Action>, key: Key, a: nat, b: nat)
    requires a <= b <= |acts| < |ss|
  {
    && Signals(ss, acts, key, a, b) == Changes(Revisions(acts, key, a, b))
    && key in ss[b].workers && ss[b].workers[key].revision == LastOf(Revisions(acts, key, a, b))
  }

  lemma {:induction false} CountedNext(ss: seq<State>, acts: seq<Action>, key: Key, a: nat, j: nat)
    requires IsTrace(ss, acts) && a <= j < |acts| && Counted(ss, acts, key, a, j) && acts[j] != Action.Stop(key)
    ensures Counted(ss, acts, key, a, j + 1)
  {
    var revisions := Revisions(acts, key, a, j);
    assert ss[j + 1] == Next(ss[j], acts[j]);
    StepRevision(ss[j], acts[j], key);
    if acts[j].Observe? && acts[j].key == key {
      ChangesAppend(revisions, acts[j].revision);
      assert Revisions(acts, key, a, j + 1) == revisions + [acts[j].revision];
    } else {
      assert Revisions(acts, key, a, j + 1) == revisions + [] == revisions;
    }
  }

  lemma {:induction false} CountedFirst(ss: seq<State>, acts: seq<Action>, key: Key, a: nat)
    requires IsTrace(ss, acts) && a < |acts|
    requires acts[a].Ensure? && acts[a].key == key && key !in ss[a].workers
    ensures Counted(ss, acts, key, a, a + 1)
  {
    assert ss[a + 1] == Next(ss[a], acts[a]);
    assert Revisions(acts, key, a, a) == [] && Signals(ss, acts, key, a, a) == 0;
  }

  ghost function CountedAt(ss: seq<State>, acts: seq<Action>, key: Key, a: nat): nat -> bool {
    j => a <= j <= |acts| < |ss| && Counted(ss, acts, key, a, j)
  }

  lemma {:induction false} CountedSteps(ss: seq<State>, acts: seq<Action>, key: Key, a: nat, b: nat)
    requires IsTrace(ss, acts) && b <= |acts|
    requires forall k :: a < k < b ==> acts[k] != Action.Stop(key)
    ensures forall j :: a < j < b && CountedAt(ss, acts, key, a)(j) ==> CountedAt(ss, acts, key, a)(j + 1)
  {
    forall j | a < j < b && CountedAt(ss, acts, key, a)(j) ensures CountedAt(ss, acts, key, a)(j + 1) {
      CountedNext(ss, acts, key, a, j);
    }
  }

  lemma {:induction false} CountedThroughout(ss: seq<State>, acts: seq<Action>, key: Key, a: nat, b: nat)
    requires IsTrace(ss, acts) && a < b <= |acts|
    requires acts[a].Ensure? && acts[a].key == key && key !in ss[a].workers
    requires forall k :: a < k < b ==> acts[k] != Action.Stop(key)
    ensures Counted(ss, acts, key, a, b)
  {
    CountedFirst(ss, acts, key, a);
    CountedSteps(ss, acts, key, a, b);
    Upward(CountedAt(ss, acts, key, a), a + 1, b);
  }

  /** Rollout signals: from the start of a worker on, until it is stopped, the signals emitted for its key are
      exactly the changes between consecutively observed revisions; the first observation emits none. */
  lemma {:induction false} SignalsAreChanges(ss: seq<State>, acts: seq<Action>, key: Key, a: nat, b: nat)
    requires IsTrace(ss, acts) && a < b <= |acts|
    requires acts[a].Ensure? && acts[a].key == key && key !in ss[a].workers
    requires forall k :: a < k < b ==> acts[k] != Action.Stop(key)
    ensures Signals(ss, acts, key, a, b) == Changes(Revisions(acts, key, a, b))
    ensures key in ss[b].workers && ss[b].workers[key].revision == LastOf(Revisions(acts, key, a, b))
  {
    CountedThroughout(ss, acts, key, a, b);
  }
}
