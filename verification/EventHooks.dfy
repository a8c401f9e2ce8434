/** The event hooks of WindowOcclusionCalculator (ui/aura/native_window_occlusion_tracker_win.cc) as a ledger of
    resources of the operating system. */
module EventHooks {
  type Pid = int
  type Hook = nat

  const NO_HOOK: Hook := 0

  /** SetWinEventHook() and UnhookWinEvent().  `misused` records that a hook that is not installed was
      unhooked, `failed` that a hook could not be installed. */
  class WinEvents {
    var issued: nat
    var live: set<Hook>
    var misused: bool
    var failed: bool

    constructor ()
      ensures issued == 0 && live == {} && !misused && !failed
    {
      issued, live, misused, failed := 0, {}, false, false;
    }

    method Set() returns (h: Hook)
      modifies this
      ensures misused == old(misused) && failed == (old(failed) || h == NO_HOOK)
      ensures h == NO_HOOK ==> issued == old(issued) && live == old(live)
      ensures h != NO_HOOK ==> h == issued == old(issued) + 1 && live == old(live) + {h}
    {
      var ok: bool := *;
      h := NO_HOOK;
      if ok {
        issued := issued + 1;
        h := issued;
        live := live + {h};
      } else {
        failed := true;
      }
    }

    method Unhook(h: Hook)
      modifies this
      ensures issued == old(issued) && failed == old(failed) && live == old(live) - {h}
      ensures misused == (old(misused) || (h != NO_HOOK && h !in old(live)))
    {
      misused := misused || (h != NO_HOOK && h !in live);
      live := live - {h};
    }
  }

  lemma PrunedSets(keys: set<Pid>, pids: set<Pid>, current: set<Pid>)
    ensures pids - (pids - current) == pids * current
    ensures pids <= keys ==> pids * current <= keys - (pids - current)
    ensures pids == keys ==> pids * current == keys - (pids - current)
  {
  }

  class Hooks {
    const os: WinEvents
    var globals: seq<Hook>
    var processes: map<Pid, Hook>
    var pids: set<Pid>

    constructor (os: WinEvents)
      requires os.live == {} && !os.misused
      ensures this.os == os && Valid() && Tight() && globals == [] && pids == {}
    {
      this.os := os;
      globals, processes, pids := [], map[], {};
    }

    /** Every recorded hook is installed, once, and nothing was ever unhooked twice. */
    ghost predicate Sound()
      reads this`globals, this`processes, os
    {
      && !os.misused
      && (!os.failed ==> forall p :: p in processes ==> processes[p] != NO_HOOK)
      && (forall h :: h in os.live ==> 0 < h <= os.issued)
      && (forall i :: 0 <= i < |globals| && globals[i] != NO_HOOK ==> globals[i] in os.live)
      && (forall p :: p in processes && processes[p] != NO_HOOK ==> processes[p] in os.live)
      && (forall i, j :: 0 <= i < j < |globals| && globals[i] != NO_HOOK ==> globals[i] != globals[j])
      && (forall p, q :: p in processes && q in processes && p != q && processes[p] != NO_HOOK ==>
            processes[p] != processes[q])
      && (forall i, p :: 0 <= i < |globals| && p in processes && globals[i] != NO_HOOK ==> globals[i] != processes[p])
    }

    ghost predicate Valid()
      reads this, os
    {
      Sound() && pids <= processes.Keys
    }

    /** Installed hooks that nothing records any more. */
    ghost function Leaked(): set<Hook>
      reads this`globals, this`processes, os
    {
      os.live - Recorded(globals, processes)
    }

    /** The ledger is exact: no hook leaked, and the map has the pids it is meant for. */
    ghost predicate Tight()
      reads this, os
    {
      processes.Keys == pids && Leaked() == {}
    }

    /** A recorded hook that UnregisterAll() would forget: its process is not among the pids it goes through. */
    ghost predicate Orphan(p: Pid)
      reads this
    {
      p in processes && p !in pids && processes[p] != NO_HOOK
    }

    /** Every installed hook will be unhooked by UnregisterAll(). */
    ghost predicate Accounted()
      reads this, os
    {
      Leaked() == {} && forall p :: p in processes ==> !Orphan(p)
    }

    /** A hook has leaked, or is bound to leak: nothing but UnregisterAll() empties a map with global hooks. */
    ghost predicate Doomed()
      reads this, os
    {
      Leaked() != {} || (globals != [] && exists p :: p in processes && Orphan(p))
    }

    /** Nothing is recorded. */
    ghost predicate Emptied()
      reads this
    {
      globals == [] && processes == map[] && pids == {}
    }

    /** What is accounted for stays so, what is doomed stays doomed, and a failed call is not forgotten. */
    twostate predicate Steady()
      reads this, os
    {
      (old(Accounted()) ==> Accounted()) && (old(Doomed()) ==> Doomed()) && (old(os.failed) ==> os.failed)
    }

    method RegisterGlobal()
      requires Sound()
      modifies this`globals, os
      ensures Sound() && Leaked() == old(Leaked())
      ensures exists h :: globals == old(globals) + [h]
      ensures old(os.failed) ==> os.failed
    {
      var h := os.Set();
      RecordedGlobal(globals, processes, h);
      globals := globals + [h];
    }

    /** RegisterEventHookForProcess(): a hook already recorded for the process is overwritten, not unhooked. */
    method RegisterForProcess(pid: Pid)
      requires Sound()
      modifies this`processes, this`pids, os
      ensures Sound() && pids == old(pids) + {pid} && processes.Keys == old(processes.Keys) + {pid}
      ensures forall p :: p in old(processes) && p != pid ==> processes[p] == old(processes)[p]
      ensures Leaked() == old(Leaked()) + Lost(old(processes), pid)
      ensures old(os.failed) ==> os.failed
    {
      ghost var before := if pid in processes then processes[pid] else NO_HOOK;
      ghost var others := Recorded(globals, processes - {pid});
      RecordedProcess(globals, processes, pid, before);
      assert pid in processes ==> processes[pid := before] == processes;
      assert pid !in processes ==> processes - {pid} == processes;
      pids := pids + {pid};
      var h := os.Set();
      RecordedProcess(globals, processes, pid, h);
      processes := processes[pid := h];
      assert before != NO_HOOK ==> before in os.live && before !in Recorded(globals, processes);
    }

    /** The seven hooks that are not tied to a process. */
    method RegisterGlobals()
      requires Sound() && globals == []
      modifies this`globals, os
      ensures Sound() && |globals| == 7 && Leaked() == old(Leaked())
      ensures old(os.failed) ==> os.failed
    {
      for i := 0 to 7
        invariant Sound() && |globals| == i && Leaked() == old(Leaked()) && (old(os.failed) ==> os.failed)
      {
        RegisterGlobal();
      }
    }

    method UnhookGlobals()
      requires Sound()
      modifies this`globals, os
      ensures Sound() && globals == []
      ensures os.live == old(os.live) - set h | h in old(globals)
      ensures os.failed == old(os.failed)
    {
      for i := 0 to |globals|
        invariant globals == old(globals) && os.issued == old(os.issued) && os.failed == old(os.failed) && !os.misused
        invariant os.live == old(os.live) - set h | h in globals[..i]
      {
        assert globals[i] != NO_HOOK ==> globals[i] in os.live by {
          assert globals[i] in globals[..i] ==> exists k :: 0 <= k < i && globals[k] == globals[i];
        }
        assert globals[..i + 1] == globals[..i] + [globals[i]];
        os.Unhook(globals[i]);
      }
      assert globals[..|globals|] == globals;
      globals := [];
    }

    method UnhookProcesses()
      requires Valid()
      modifies this`processes, this`pids, os
      ensures Valid() && processes == map[] && pids == {}
      ensures os.live == old(os.live) - Values(old(processes), old(pids))
      ensures os.failed == old(os.failed)
    {
      ghost var done := {};
      var todo := pids;
      while todo != {}
        invariant processes == old(processes) && pids == old(pids) == done + todo && done !! todo
        invariant os.issued == old(os.issued) && os.failed == old(os.failed) && !os.misused
        invariant os.live == old(os.live) - Values(processes, done)
        decreases |todo|
      {
        SomePid(todo);
        var pid :| pid in todo;
        os.Unhook(processes[pid]);
        todo, done := todo - {pid}, done + {pid};
      }
      assert done == pids;
      processes := map[];
      pids := {};
    }

    /** Unhooking what is recorded leaves nothing of hooks that are accounted for. */
    lemma NothingLeft()
      requires Sound() && Accounted()
      ensures os.live - (set h | h in globals) - Values(processes, pids) == {}
    {
      forall h | h in os.live
        ensures h in globals || h in Values(processes, pids)
      {
        assert h !in Leaked() && h in Recorded(globals, processes);
        if h !in globals {
          var p :| p in processes && processes[p] == h;
          assert !Orphan(p) && h != NO_HOOK;
        }
      }
    }

    /** It leaves a hook that has leaked, or is bound to. */
    lemma SomethingLeft()
      requires Sound() && Doomed()
      ensures os.live - (set h | h in globals) - Values(processes, pids) != {}
    {
      var left := os.live - (set h | h in globals) - Values(processes, pids);
      if Leaked() != {} {
        var h :| h in Leaked();
        assert h !in Recorded(globals, processes);
        assert h in left;
      } else {
        var p :| p in processes && Orphan(p);
        assert processes[p] in left;
      }
    }

    /** UnregisterEventHooks(): with an exact ledger nothing stays installed. */
    method UnregisterAll()
      requires Valid()
      modifies this`globals, this`processes, this`pids, os
      ensures Valid() && Emptied()
      ensures old(Tight()) ==> Tight() && os.live == {}
      ensures Steady() && (old(Accounted()) ==> os.live == {})
    {
      ghost var accounted, doomed, live := Accounted(), Doomed(), os.live;
      ghost var left := live - (set h | h in globals) - Values(processes, pids);
      if accounted { NothingLeft(); }
      if doomed { SomethingLeft(); }
      assert Tight() ==> Accounted();
      UnhookGlobals();
      UnhookProcesses();
      assert os.live == left && Recorded(globals, processes) == {};
    }

    method UnhookProcess(pid: Pid)
      requires Sound() && pid in processes
      modifies this`processes, os
      ensures Sound() && processes == old(processes) - {pid} && Leaked() == old(Leaked())
      ensures os.failed == old(os.failed)
    {
      ghost var h := processes[pid];
      RecordedProcess(globals, processes, pid, h);
      assert processes[pid := h] == processes;
      os.Unhook(processes[pid]);
      processes := processes - {pid};
      assert h != NO_HOOK ==> h !in Recorded(globals, processes);
    }

    /** The processes in `done` were unhooked since the map was `start`. */
    ghost predicate Unhooked(start: map<Pid, Hook>, leaked: set<Hook>, done: set<Pid>)
      reads this`globals, this`processes, os
    {
      Sound() && processes == start - done && Leaked() == leaked
    }

    method UnhookNext(pid: Pid, ghost start: map<Pid, Hook>, ghost leaked: set<Hook>, ghost done: set<Pid>)
      requires Unhooked(start, leaked, done) && pid in start && pid !in done
      modifies this`processes, os
      ensures Unhooked(start, leaked, done + {pid})
      ensures os.failed == old(os.failed)
    {
      UnhookProcess(pid);
      assert processes == start - (done + {pid});
    }

    method UnhookAll(gone: set<Pid>)
      requires Sound() && gone <= processes.Keys
      modifies this`processes, os
      ensures Sound() && processes == old(processes) - gone && Leaked() == old(Leaked())
      ensures os.failed == old(os.failed)
    {
      var todo := gone;
      ghost var start, leaked := processes, Leaked();
      while todo != {}
        invariant Unhooked(start, leaked, gone - todo) && todo <= gone && os.failed == old(os.failed)
        decreases |todo|
      {
        SomePid(todo);
        var pid :| pid in todo;
        UnhookNext(pid, start, leaked, gone - todo);
        assert gone - (todo - {pid}) == gone - todo + {pid};
        todo := todo - {pid};
      }
    }

    /** The end of a calculation: processes without an occluding window are unhooked. */
    method Prune(current: set<Pid>)
      requires Valid()
      modifies this`processes, this`pids, os
      ensures Valid() && pids == old(pids) * current && Leaked() == old(Leaked())
      ensures old(Tight()) ==> Tight()
      ensures Steady()
    {
      UnhookAll(pids - current);
      PrunedSets(old(processes.Keys), pids, current);
      pids := pids - (pids - current);
      assert forall p :: Orphan(p) <==> old(Orphan(p));
    }

    /** Exactly the processes in `done` were hooked since the map was `start`. */
    ghost predicate Progress(start: map<Pid, Hook>, leaked: set<Hook>, done: set<Pid>)
      reads this, os
    {
      && processes.Keys == start.Keys + done
      && (forall p :: p in start && p !in done ==> processes[p] == start[p])
      && Leaked() == leaked + Overwritten(start, done)
    }

    method RegisterNext(pid: Pid, ghost start: map<Pid, Hook>, ghost leaked: set<Hook>, ghost done: set<Pid>)
      requires Sound() && pid in pids && pid !in done && Progress(start, leaked, done)
      modifies this`processes, this`pids, os
      ensures Sound() && pids == old(pids) && Progress(start, leaked, done + {pid})
      ensures old(os.failed) ==> os.failed
    {
      assert Lost(processes, pid) == Lost(start, pid);
      OverwrittenMore(start, done, pid);
      RegisterForProcess(pid);
    }

    /** Hooks every process in `pids`. */
    method RegisterProcesses()
      requires Sound()
      modifies this`processes, this`pids, os
      ensures Sound() && pids == old(pids) && Progress(old(processes), old(Leaked()), pids)
      ensures old(os.failed) ==> os.failed
    {
      ghost var start, leaked, done := processes, Leaked(), {};
      var todo := pids;
      while todo != {}
        invariant Sound() && pids == old(pids) && todo <= pids && (old(os.failed) ==> os.failed)
        invariant forall p :: p in pids <==> p in done || p in todo
        invariant forall p :: p in todo ==> p !in done
        invariant Progress(start, leaked, done)
        decreases |todo|
      {
        SomePid(todo);
        var pid :| pid in todo;
        RegisterNext(pid, start, leaked, done);
        todo, done := todo - {pid}, done + {pid};
      }
      SamePids(done, pids);
    }

    /** RegisterEventHooks(); `visible` are the pids of the processes that own an occluding window.  It keeps the
        ledger exactly when the map it starts from records nothing that it would forget or overwrite. */
    method RegisterAll(visible: set<Pid>)
      requires Valid() && globals == []
      modifies this`globals, this`processes, this`pids, os
      ensures Valid() && |globals| == 7 && pids == visible && processes.Keys == old(processes.Keys) + visible
      ensures Leaked() == old(Leaked()) + Overwritten(old(processes), visible)
      ensures old(Tight()) ==>
                (Tight() <==> forall p :: p in old(processes) ==> p in visible && old(processes)[p] == NO_HOOK)
      ensures old(Doomed()) ==> Doomed()
      ensures old(Accounted()) ==> if Recording(old(processes)) then Doomed() else Accounted()
      ensures old(os.failed) ==> os.failed
    {
      RegisterGlobals();
      pids := visible;
      RegisterProcesses();
      OverwrittenNone(old(processes), visible);
      KeysWithin(old(processes), visible);
    }
  }

  ghost function Values(processes: map<Pid, Hook>, pids: set<Pid>): set<Hook> {
    set p | p in processes && p in pids :: processes[p]
  }

  /** The map records an installed hook. */
  predicate Recording(processes: map<Pid, Hook>) {
    exists p :: p in processes && processes[p] != NO_HOOK
  }

  /** What overwriting one entry forgets. */
  ghost function Lost(processes: map<Pid, Hook>, pid: Pid): set<Hook> {
    if pid in processes && processes[pid] != NO_HOOK then {processes[pid]} else {}
  }

  ghost function Overwritten(start: map<Pid, Hook>, pids: set<Pid>): set<Hook> {
    set p | p in start && p in pids && start[p] != NO_HOOK :: start[p]
  }

  lemma OverwrittenMore(start: map<Pid, Hook>, pids: set<Pid>, pid: Pid)
    ensures Overwritten(start, pids + {pid})
            == Overwritten(start, pids) + Lost(start, pid)
  {
  }

  lemma OverwrittenNone(start: map<Pid, Hook>, pids: set<Pid>)
    ensures Overwritten(start, pids) == {} <==> forall p :: p in start && p in pids ==> start[p] == NO_HOOK
  {
    forall p | p in start && p in pids && start[p] != NO_HOOK
      ensures start[p] in Overwritten(start, pids)
    {
    }
  }

  lemma SomePid(pids: set<Pid>)
    ensures pids == {} || exists p :: p in pids
  {
    if forall p :: p !in pids { assert pids == {}; }
  }

  lemma SamePids(a: set<Pid>, b: set<Pid>)
    requires forall p :: p in a <==> p in b
    ensures a == b
  {
    forall p | p in a ensures p in b {}
    forall p | p in b ensures p in a {}
  }

  lemma KeysWithin(start: map<Pid, Hook>, pids: set<Pid>)
    ensures start.Keys + pids == pids <==> forall p :: p in start ==> p in pids
  {
    if forall p :: p in start ==> p in pids {
      forall p | p in start.Keys + pids
        ensures p in pids
      {
      }
      assert start.Keys + pids == pids;
    }
    if start.Keys + pids == pids {
      forall p | p in start
        ensures p in pids
      {
        assert p in start.Keys + pids;
      }
    }
  }

  /** The hooks a calculator knows of. */
  ghost function Recorded(globals: seq<Hook>, processes: map<Pid, Hook>): set<Hook> {
    (set h | h in globals) + (set p | p in processes :: processes[p])
  }

  lemma RecordedGlobal(globals: seq<Hook>, processes: map<Pid, Hook>, h: Hook)
    ensures Recorded(globals + [h], processes) == Recorded(globals, processes) + {h}
  {
    assert forall k :: k in globals + [h] <==> k in globals || k == h;
  }

  lemma RecordedProcess(globals: seq<Hook>, processes: map<Pid, Hook>, pid: Pid, h: Hook)
    ensures Recorded(globals, processes[pid := h])
            == Recorded(globals, processes - {pid}) + {h}
  {
    var m, n := processes[pid := h], processes - {pid};
    assert pid in m && m[pid] == h;
    assert forall p :: p in n ==> p in m && m[p] == n[p];
    assert forall p :: p in m && p != pid ==> p in n && n[p] == m[p];
  }
}
