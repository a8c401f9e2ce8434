/** What in_native_loop_ says about a run of the pump, and when the DCHECK of ScheduleNativeTimer() holds. */
module PumpNativeFlag {
  import opened Wrappers
  import opened PumpProtocol
  import opened PumpInvariants
  import opened PumpSteps
  import opened PumpTheorems

  /** The flag goes up when a native loop hands over kMsgHaveWork, down at those assignments, and stays otherwise. */
  predicate FlagMoves(s: State, a: Action, t: State) {
    t.inNative == (a == Handling(EnterWork) || (s.inNative && !Lowers(s, a)))
  }

  lemma FlagStep(s: State, a: Action, t: State)
    requires Next(s, a) == Some(t)
    ensures FlagMoves(s, a, t)
  {
    ViewStep(s, a, t);
  }

  // ----- The flag over whole runs -----

  /** HandleWorkMessage() began in this run, and no assignment that lowers the flag was reached since. */
  ghost predicate RaisedSince(actions: seq<Action>) {
    exists i :: 0 <= i < |actions| && actions[i] == Handling(EnterWork) && NeverLowered(actions, i + 1)
  }

  ghost predicate NeverLowered(actions: seq<Action>, from: nat) {
    forall j :: from <= j < |actions| ==> !LoweredAt(actions, j)
  }

  predicate LoweredAt(actions: seq<Action>, j: nat)
    requires j < |actions|
  {
    var s := RunFrom(InitState(), actions[..j]);
    s.Some? && Lowers(s.value, actions[j])
  }

  /** The last step of a run. */
  lemma {:induction false} LastStep(s: State, actions: seq<Action>, a: Action, u: State) returns (t: State)
    requires RunFrom(s, actions + [a]) == Some(u)
    ensures RunFrom(s, actions) == Some(t) && Next(t, a) == Some(u)
    decreases |actions|
  {
    if actions == [] {
      t := s;
      assert ([] + [a])[1..] == [];
    } else {
      assert (actions + [a])[1..] == actions[1..] + [a];
      t := LastStep(Next(s, actions[0]).value, actions[1..], a, u);
    }
  }

  /** One action more. */
  lemma RaisedSinceMore(before: seq<Action>, a: Action, s: State)
    requires RunFrom(InitState(), before) == Some(s)
    ensures RaisedSince(before + [a]) <==> a == Handling(EnterWork) || (RaisedSince(before) && !Lowers(s, a))
  {
    var actions, n := before + [a], |before|;
    assert actions[..n] == before;
    assert forall j :: 0 <= j < n ==> actions[j] == before[j] && actions[..j] == before[..j];
    assert forall j :: 0 <= j < n ==> LoweredAt(actions, j) == LoweredAt(before, j);
    assert LoweredAt(actions, n) == Lowers(s, a);
    if a == Handling(EnterWork) {
      assert NeverLowered(actions, n + 1);
    } else if RaisedSince(before) && !Lowers(s, a) {
      var i :| 0 <= i < n && before[i] == Handling(EnterWork) && NeverLowered(before, i + 1);
      assert NeverLowered(actions, i + 1);
    }
    if RaisedSince(actions) && a != Handling(EnterWork) {
      var i :| 0 <= i <= n && actions[i] == Handling(EnterWork) && NeverLowered(actions, i + 1);
      assert NeverLowered(before, i + 1);
    }
  }

  /** in_native_loop_ is up exactly if HandleWorkMessage() began and no assignment that lowers it was reached since. */
  lemma {:induction false} FlagTellsHistory(actions: seq<Action>, s: State)
    requires RunFrom(InitState(), actions) == Some(s)
    ensures s.inNative <==> RaisedSince(actions)
    decreases |actions|
  {
    if actions == [] {
      assert !RaisedSince(actions);
    } else {
      var before, a := actions[..|actions| - 1], actions[|actions| - 1];
      assert actions == before + [a];
      var t := LastStep(InitState(), before, a, s);
      FlagTellsHistory(before, t);
      FlagStep(t, a, s);
      RaisedSinceMore(before, a, t);
    }
  }

  /** Who called ScheduleNativeTimer(). */
  lemma NativeTimerCallers(s: State)
    requires Inv(s) && s.stack.On? && Top(s).NativeTimer?
    ensures Nested(s) && (Below(s).Outside? || Below(s) == HandleWork(End) || Below(s) == HandleTimer(End))
  {
  }

  /** The DCHECK of ScheduleNativeTimer() holds exactly if no such assignment was reached since HandleWorkMessage() last
      began, and always when ScheduleDelayedWork() is the caller. */
  lemma NativeTimerCheck(actions: seq<Action>, s: State)
    requires RunFrom(InitState(), actions) == Some(s) && s.stack.On? && Top(s).NativeTimer?
    ensures s.inNative <==> RaisedSince(actions)
    ensures Nested(s)
    ensures Below(s).Outside? ==> s.inNative
    ensures Below(s).Outside? || Below(s) == HandleWork(End) || Below(s) == HandleTimer(End)
  {
    FlagTellsHistory(actions, s);
    ReachableKeeps(s);
    NativeTimerCallers(s);
  }
}
