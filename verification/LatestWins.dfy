/** The request channel with its one sender: requests are numbered in the order they are notified. */
module LatestWins {
  import opened Prelude
  import opened Channels

  /** `sending` is the request whose drain is done and whose send is next. */
  datatype State = State(slot: Option<nat>, sending: Option<nat>, notified: nat, received: seq<nat>)

  datatype Action = Drain | Send | Receive

  const INITIAL := State(None, None, 0, [])

  predicate Enabled(s: State, a: Action) {
    match a
    case Drain => s.sending.None?
    case Send => s.sending.Some?
    case Receive => s.slot.Some?
  }

  function Next(s: State, a: Action): State
    requires Enabled(s, a)
  {
    match a
    case Drain => State(None, Some(s.notified), s.notified + 1, s.received)
    case Send => State(Sent(s.slot, s.sending.value), None, s.notified, s.received)
    case Receive => s.(slot := None, received := s.received + [s.slot.value])
  }

  ghost predicate IsTrace(ss: seq<State>, acts: seq<Action>) {
    && |ss| == |acts| + 1
    && ss[0] == INITIAL
    && forall k :: 0 <= k < |acts| ==> Enabled(ss[k], acts[k]) && ss[k + 1] == Next(ss[k], acts[k])
  }

  predicate Last(s: seq<nat>, x: nat) { s != [] && s[|s| - 1] == x }

  ghost predicate Increasing(s: seq<nat>) { forall i, j :: 0 <= i < j < |s| ==> s[i] < s[j] }

  ghost predicate Inv(s: State) {
    && (s.sending.Some? ==> s.slot.None? && s.notified == s.sending.value + 1)
    && (s.slot.Some? ==> s.notified == s.slot.value + 1)
    && Increasing(s.received)
    && (forall i :: 0 <= i < |s.received| ==> s.received[i] < s.notified)
    && (s.sending.Some? || s.slot.Some? ==> forall i :: 0 <= i < |s.received| ==> s.received[i] + 1 < s.notified)
    && (s.sending.None? && s.slot.None? && s.notified > 0 ==> Last(s.received, s.notified - 1))
  }

  lemma {:induction false} InvHolds(ss: seq<State>, acts: seq<Action>, k: nat)
    requires IsTrace(ss, acts) && k < |ss|
    ensures Inv(ss[k])
  {
    if k > 0 {
      InvHolds(ss, acts, k - 1);
      assert Enabled(ss[k - 1], acts[k - 1]) && ss[k] == Next(ss[k - 1], acts[k - 1]);
    }
  }

  /** Latest-wins delivery: the send after a drain always succeeds; the consumer sees notified requests only, in
      order and never twice; and between notifications the newest request is pending or the last received. */
  lemma {:induction false} LatestWinsDelivery(ss: seq<State>, acts: seq<Action>, k: nat)
    requires IsTrace(ss, acts) && k < |ss|
    ensures k < |acts| && acts[k].Send? ==> ss[k + 1].slot == ss[k].sending && ss[k].sending.Some?
    ensures Increasing(ss[k].received) && forall i :: 0 <= i < |ss[k].received| ==> ss[k].received[i] < ss[k].notified
    ensures ss[k].sending.None? && ss[k].notified > 0 ==>
              ss[k].slot == Some(ss[k].notified - 1) || Last(ss[k].received, ss[k].notified - 1)
  {
    InvHolds(ss, acts, k);
  }
}
