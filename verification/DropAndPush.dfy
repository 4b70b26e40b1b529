/** Any number of callers of the signalling send against one receiver, interleaved select by select. */
module DropAndPushInterleaved {
  import opened Prelude
  import opened Channels

  /** The select a call is about to execute. */
  datatype Pc = FirstSend | Drain | LastSend | Returned

  /** `served` records that the worker has received since the call began. */
  datatype Call = Call(pc: Pc, served: bool)

  datatype State = State(slot: Option<()>, calls: seq<Call>)

  datatype Action = Begin | Advance(i: nat) | Receive

  const INITIAL := State(None, [])

  predicate Enabled(s: State, a: Action) {
    match a
    case Begin => true
    case Advance(i) => i < |s.calls| && !s.calls[i].pc.Returned?
    case Receive => s.slot.Some?
  }

  function Select(slot: Option<()>, pc: Pc): (Option<()>, Pc)
    requires !pc.Returned?
  {
    match pc
    case FirstSend => (Sent(slot, ()), if slot.None? then Returned else Drain)
    case Drain => (None, LastSend)
    case LastSend => (Sent(slot, ()), Returned)
  }

  function Next(s: State, a: Action): State
    requires Enabled(s, a)
  {
    match a
    case Begin => s.(calls := s.calls + [Call(FirstSend, false)])
    case Advance(i) =>
      var (slot, pc) := Select(s.slot, s.calls[i].pc);
      State(slot, s.calls[i := s.calls[i].(pc := pc)])
    case Receive => State(None, seq(|s.calls|, i requires 0 <= i < |s.calls| => s.calls[i].(served := true)))
  }

  /** Undisturbed, a call takes one select against an empty channel and three against a full one, which it empties on
      the way. */
  lemma {:induction false} UndisturbedCall(s: State, i: nat)
    requires i < |s.calls| && s.calls[i].pc.FirstSend?
    ensures var one := Next(s, Advance(i));
            if s.slot.None? then one.slot.Some? && one.calls[i].pc.Returned?
            else
              && Enabled(one, Advance(i))
              && var two := Next(one, Advance(i));
                 && two.slot.None? && Enabled(two, Advance(i))
                 && var three := Next(two, Advance(i));
                    three.slot.Some? && three.calls[i].pc.Returned?
  {}

  ghost predicate IsTrace(ss: seq<State>, acts: seq<Action>) {
    && |ss| == |acts| + 1
    && ss[0] == INITIAL
    && forall k :: 0 <= k < |acts| ==> Enabled(ss[k], acts[k]) && ss[k + 1] == Next(ss[k], acts[k])
  }

  ghost predicate BetweenDrainAndSend(s: State) { exists j :: 0 <= j < |s.calls| && s.calls[j].pc.LastSend? }

  ghost predicate NothingLost(s: State) {
    s.slot.Some? || BetweenDrainAndSend(s)
    || forall i :: 0 <= i < |s.calls| && s.calls[i].pc.Returned? ==> s.calls[i].served
  }

  lemma {:induction false} StepLosesNothing(s: State, a: Action)
    requires NothingLost(s) && Enabled(s, a)
    ensures NothingLost(Next(s, a))
  {
    var s' := Next(s, a);
    if a.Advance? && s.calls[a.i].pc.Drain? {
      assert s'.calls[a.i].pc.LastSend?;
    } else if !s'.slot.Some? && !a.Receive? {
      if BetweenDrainAndSend(s) {
        var j :| 0 <= j < |s.calls| && s.calls[j].pc.LastSend?;
        assert s'.calls[j].pc.LastSend?;
      }
    }
  }

  /** No lost wakeup: in every interleaving, when a call has returned and the worker has received nothing since
      it began, a signal is pending or another call stands between its drain and its final send. */
  lemma {:induction false} NoLostWakeup(ss: seq<State>, acts: seq<Action>, k: nat)
    requires IsTrace(ss, acts) && k < |ss|
    ensures NothingLost(ss[k])
  {
    if k > 0 {
      NoLostWakeup(ss, acts, k - 1);
      assert ss[k] == Next(ss[k - 1], acts[k - 1]);
      StepLosesNothing(ss[k - 1], acts[k - 1]);
    }
  }

  /** Once no call is in progress, an unserved call means a pending signal. */
  lemma {:induction false} QuiescentIsPending(ss: seq<State>, acts: seq<Action>, k: nat, i: nat)
    requires IsTrace(ss, acts) && k < |ss|
    requires forall j :: 0 <= j < |ss[k].calls| ==> ss[k].calls[j].pc.Returned?
    requires i < |ss[k].calls| && !ss[k].calls[i].served
    ensures ss[k].slot.Some?
  {
    NoLostWakeup(ss, acts, k);
  }

  function Rank(pc: Pc): nat {
    match pc case FirstSend => 0 case Drain => 1 case LastSend => 2 case Returned => 3
  }

  function Advances(acts: seq<Action>, k: nat, i: nat): nat
    requires k <= |acts|
  {
    if k == 0 then 0 else Advances(acts, k - 1, i) + (if acts[k - 1] == Advance(i) then 1 else 0)
  }

  lemma {:induction false} AdvancesAreRanked(ss: seq<State>, acts: seq<Action>, k: nat, i: nat)
    requires IsTrace(ss, acts) && k <= |acts|
    ensures if i < |ss[k].calls| then Advances(acts, k, i) <= Rank(ss[k].calls[i].pc) else Advances(acts, k, i) == 0
  {
    if k > 0 {
      AdvancesAreRanked(ss, acts, k - 1, i);
      assert Enabled(ss[k - 1], acts[k - 1]) && ss[k] == Next(ss[k - 1], acts[k - 1]);
    }
  }

  /** No sender ever blocks: until it returns a call's next select is always enabled, no call, in any interleaving,
      executes more than three, and one that executed three has returned. */
  lemma {:induction false} SendersNeverBlock(ss: seq<State>, acts: seq<Action>, k: nat, i: nat)
    requires IsTrace(ss, acts) && k <= |acts|
    ensures i < |ss[k].calls| && !ss[k].calls[i].pc.Returned? ==> Enabled(ss[k], Advance(i))
    ensures Advances(acts, k, i) <= 3
    ensures Advances(acts, k, i) == 3 ==> i < |ss[k].calls| && ss[k].calls[i].pc.Returned?
  {
    AdvancesAreRanked(ss, acts, k, i);
  }

  function Receives(acts: seq<Action>, k: nat): nat
    requires k <= |acts|
  {
    if k == 0 then 0 else Receives(acts, k - 1) + (if acts[k - 1].Receive? then 1 else 0)
  }

  function ReturnedCalls(calls: seq<Call>): nat {
    if calls == [] then 0
    else ReturnedCalls(calls[..|calls| - 1]) + (if calls[|calls| - 1].pc.Returned? then 1 else 0)
  }

  lemma {:induction false} ReturnedAfterUpdate(calls: seq<Call>, i: nat, c: Call)
    requires i < |calls|
    ensures ReturnedCalls(calls[i := c]) == ReturnedCalls(calls)
            - (if calls[i].pc.Returned? then 1 else 0) + (if c.pc.Returned? then 1 else 0)
    decreases |calls|
  {
    var n := |calls| - 1;
    if i < n {
      assert calls[i := c][..n] == calls[..n][i := c];
      ReturnedAfterUpdate(calls[..n], i, c);
    } else {
      assert calls[i := c][..n] == calls[..n];
    }
  }

  lemma {:induction false} ReturnedIgnoresServed(calls: seq<Call>, calls': seq<Call>)
    requires |calls| == |calls'|
    requires forall i :: 0 <= i < |calls| ==> calls'[i].pc == calls[i].pc
    ensures ReturnedCalls(calls') == ReturnedCalls(calls)
    decreases |calls|
  {
    if calls != [] {
      ReturnedIgnoresServed(calls[..|calls| - 1], calls'[..|calls| - 1]);
    }
  }

  /** No wakeup out of nothing: signals received or pending never outnumber the calls that returned. */
  lemma {:induction false} NoSpuriousWakeup(ss: seq<State>, acts: seq<Action>, k: nat)
    requires IsTrace(ss, acts) && k <= |acts|
    ensures Receives(acts, k) + (if ss[k].slot.Some? then 1 else 0) <= ReturnedCalls(ss[k].calls)
  {
    if k > 0 {
      NoSpuriousWakeup(ss, acts, k - 1);
      var s, a := ss[k - 1], acts[k - 1];
      assert Enabled(s, a) && ss[k] == Next(s, a);
      match a {
        case Begin =>
          assert ss[k].calls[..|s.calls|] == s.calls;
        case Advance(i) =>
          ReturnedAfterUpdate(s.calls, i, ss[k].calls[i]);
        case Receive =>
          ReturnedIgnoresServed(s.calls, ss[k].calls);
      }
    }
  }
}
