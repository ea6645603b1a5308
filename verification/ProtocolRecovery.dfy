/**
How the robot recovers from a command timeout: only through a command that the monitor reads before the
control loop zeroes it, and never while every command is zeroed first.
*/
module ProtocolRecovery {
  import opened Fault
  import opened RobotCommand
  import opened Protocol
  import opened ProtocolGating
  import opened ProtocolLatching
  import opened ProtocolLifecycle
  import opened StateMachine
  import opened TimeUtils

  /** The command the monitor is about to judge is the one in the cell at the start of its pass. */
  lemma {:induction false} JudgingHistory(r: Run, k: nat) returns (g: nat)
    requires IsRun(r) && Initial(r.states[0]) && k < |r.states| && r.states[k].monitor.Judging?
    ensures g < k && r.events[g] == MonitorGet && r.states[k].monitor.read == r.states[g].cell
    ensures forall j | g < j < k :: r.events[j] != MonitorGet
  {
    StepAt(r, k - 1);
    if r.events[k - 1] == MonitorGet {
      g := k - 1;
    } else {
      g := JudgingHistory(r, k - 1);
    }
  }

  /** A monitor pass read the command at g and judged it at j, and is still the current pass at k. */
  ghost predicate JudgedPass(r: Run, g: nat, j: nat, k: nat)
    requires IsRun(r)
  {
    && g < j < k < |r.states|
    && r.events[g] == MonitorGet && r.events[j] == MonitorJudge
    && forall i | g < i < k :: r.events[i] != MonitorGet
  }

  /** The verdict about to be posted is on the age, when judged, of the command the pass read. */
  lemma {:induction false} VerdictHistory(r: Run, k: nat) returns (g: nat, j: nat)
    requires IsRun(r) && Initial(r.states[0]) && k < |r.states| && r.states[k].monitor.PostingTimeout?
    ensures JudgedPass(r, g, j, k)
    ensures r.states[k].monitor.expired <==> Expired(r.states[g].cell, r.states[j].clock)
  {
    StepAt(r, k - 1);
    if r.events[k - 1] == MonitorJudge {
      g := JudgingHistory(r, k - 1);
      j := k - 1;
    } else {
      g, j := VerdictHistory(r, k - 1);
    }
  }

  /** Posting leaves the timeout fault set exactly when the command the pass read was invalid or 500 ms old. */
  lemma TimeoutVerdict(r: Run, k: nat) returns (g: nat, j: nat)
    requires IsRun(r) && Initial(r.states[0]) && k < |r.events| && r.events[k] == MonitorPostTimeout
    ensures JudgedPass(r, g, j, k)
    ensures CmdTimeout in r.states[k + 1].faults <==> Expired(r.states[g].cell, r.states[j].clock)
  {
    StepAt(r, k);
    g, j := VerdictHistory(r, k);
  }

  /**
  A callback stored a command at c that nothing zeroed or replaced before the monitor read it at g, and it
  was under 500 ms old when judged at j.
  */
  ghost predicate Survives(r: Run, c: nat, g: nat, j: nat)
    requires IsRun(r) && g < |r.events| && j < |r.states|
  {
    && c < g && r.events[c].CallbackStore? && (forall i | c < i < g :: !WritesCell(r.events[i]))
    && 0 < r.states[c].clock && Elapsed(r.states[j].clock, r.states[c].clock) < CMD_TIMEOUT_MS
  }

  /** A stored command stays in the cell until something writes it again. */
  lemma {:induction false} CellKept(r: Run, c: nat, k: nat)
    requires IsRun(r) && c < k < |r.states| && r.events[c].CallbackStore?
    requires forall i | c < i < k :: !WritesCell(r.events[i])
    ensures r.states[k].cell == Stored(r.events[c].linear, r.events[c].angular, r.states[c].clock)
    decreases k
  {
    StepAt(r, k - 1);
    if c < k - 1 {
      CellKept(r, c, k - 1);
    }
  }

  /** The command read at g is fresh at j exactly if some stored command survived until then. */
  lemma FreshIff(r: Run, g: nat, j: nat)
    requires IsRun(r) && Initial(r.states[0]) && g < |r.events| && j < |r.states|
    ensures !Expired(r.states[g].cell, r.states[j].clock) <==> exists c: nat :: Survives(r, c, g, j)
  {
    var cell, now := r.states[g].cell, r.states[j].clock;
    if !Expired(cell, now) {
      var c := CellHistory(r, g);
      ExpiredByElapsed(now, cell.stamp, CMD_TIMEOUT_MS);
      assert Survives(r, c, g, j);
    }
    forall c: nat | Survives(r, c, g, j)
      ensures !Expired(cell, now)
    {
      CellKept(r, c, g);
      ExpiredByElapsed(now, cell.stamp, CMD_TIMEOUT_MS);
    }
  }

  /**
  Recovery, exactly: without a reset, a step clears the timeout fault if and only if it is the monitor posting
  its verdict on a pass that read, at g, a command that survived until it was judged at j.
  */
  lemma RecoversIff(r: Run, k: nat) returns (g: nat, j: nat)
    requires IsRun(r) && Initial(r.states[0]) && k < |r.events| && !Resets(r.states[k], r.events[k])
    requires CmdTimeout in r.states[k].faults
    ensures r.events[k] == MonitorPostTimeout ==> JudgedPass(r, g, j, k)
    ensures CmdTimeout !in r.states[k + 1].faults
       <==> r.events[k] == MonitorPostTimeout && exists c: nat :: Survives(r, c, g, j)
  {
    g, j := 0, 0;
    StepAt(r, k);
    FaultCleared(r.states[k], r.events[k], r.states[k + 1], CmdTimeout);
    if r.events[k] == MonitorPostTimeout {
      g, j := TimeoutVerdict(r, k);
      FreshIff(r, g, j);
    }
  }

  // ----- the lockout

  /** Every command stored at an index from n up to m is zeroed before the monitor next reads it. */
  ghost predicate ZeroedFirst(r: Run, n: nat, m: nat)
    requires IsRun(r) && m < |r.states|
  {
    forall c: nat, g: nat {:trigger ZeroedBetween(r, c, g)}
      | n <= c < g < m && r.events[c].CallbackStore? && r.events[g] == MonitorGet :: ZeroedBetween(r, c, g)
  }

  ghost predicate ZeroedBetween(r: Run, c: nat, g: nat)
    requires IsRun(r) && g < |r.events|
  {
    exists z | c < z < g :: r.events[z] == ControlZero
  }

  /** The monitor's pass in progress, if any, can only confirm the timeout. */
  predicate NothingPending(s: State) {
    && (s.monitor.Judging? ==> Expired(s.monitor.read, s.clock))
    && (s.monitor.PostingTimeout? ==> s.monitor.expired)
  }

  /** The timeout fault is set, and neither the cell nor the monitor's pass can clear it. */
  predicate Locked(s: State) {
    CmdTimeout in s.faults && NothingPending(s)
  }

  /** The command in the cell is stale at k, or it was stored since n and has not been overwritten. */
  ghost predicate CellAccounted(r: Run, n: nat, k: nat)
    requires IsRun(r) && k < |r.states|
  {
    Expired(r.states[k].cell, r.states[k].clock) || exists c: nat :: LastStore(r, n, c, k)
  }

  ghost predicate LastStore(r: Run, n: nat, c: nat, k: nat)
    requires IsRun(r) && k < |r.states|
  {
    n <= c < k && r.events[c].CallbackStore? && forall i | c < i < k :: !WritesCell(r.events[i])
  }

  lemma NextExpired(s: State, e: Event, next: State)
    requires Enabled(s, e) && next == Next(s, e) && !e.CallbackStore? && Expired(s.cell, s.clock)
    ensures Expired(next.cell, next.clock)
  {
  }

  lemma ZeroExpires(s: State, next: State)
    requires Enabled(s, ControlZero) && next == Next(s, ControlZero)
    ensures Expired(next.cell, next.clock)
  {
  }

  lemma {:induction false} CellIsAccounted(r: Run, n: nat, k: nat)
    requires IsRun(r) && n <= k < |r.states| && Expired(r.states[n].cell, r.states[n].clock)
    ensures CellAccounted(r, n, k)
    decreases k
  {
    if n < k {
      CellIsAccounted(r, n, k - 1);
      StepAt(r, k - 1);
      AccountStep(r, n, k - 1);
    }
  }

  lemma AccountStep(r: Run, n: nat, k: nat)
    requires IsRun(r) && n <= k < |r.events| && CellAccounted(r, n, k)
    ensures CellAccounted(r, n, k + 1)
  {
    StepAt(r, k);
    var s, e, next := r.states[k], r.events[k], r.states[k + 1];
    if e.CallbackStore? {
      assert LastStore(r, n, k, k + 1);
    } else if e == ControlZero {
      ZeroExpires(s, next);
    } else if Expired(s.cell, s.clock) {
      NextExpired(s, e, next);
    } else {
      var c: nat :| LastStore(r, n, c, k);
      assert LastStore(r, n, c, k + 1);
    }
  }

  /** Any command the monitor reads in a locked-out stretch is stale. */
  lemma ReadIsExpired(r: Run, n: nat, m: nat, g: nat)
    requires IsRun(r) && n <= g < m < |r.states| && ZeroedFirst(r, n, m)
    requires Expired(r.states[n].cell, r.states[n].clock) && r.events[g] == MonitorGet
    ensures Expired(r.states[g].cell, r.states[g].clock)
  {
    CellIsAccounted(r, n, g);
    forall c: nat
      ensures !LastStore(r, n, c, g)
    {
      if n <= c < g && r.events[c].CallbackStore? {
        assert ZeroedBetween(r, c, g);
      }
    }
  }

  lemma NextLocked(s: State, e: Event, next: State)
    requires Enabled(s, e) && next == Next(s, e) && Locked(s) && !Resets(s, e)
    requires e == MonitorGet ==> Expired(s.cell, s.clock)
    ensures Locked(next)
  {
  }

  /** While every command is zeroed before the monitor reads it, the timeout fault stays set. */
  lemma {:induction false} StaysLocked(r: Run, n: nat, k: nat, m: nat)
    requires IsRun(r) && n <= k <= m < |r.states| && NoReset(r, n, m) && ZeroedFirst(r, n, m)
    requires Locked(r.states[n]) && Expired(r.states[n].cell, r.states[n].clock)
    ensures Locked(r.states[k])
    decreases k
  {
    if n < k {
      StaysLocked(r, n, k - 1, m);
      StepAt(r, k - 1);
      if r.events[k - 1] == MonitorGet {
        ReadIsExpired(r, n, m, k - 1);
      }
      NextLocked(r.states[k - 1], r.events[k - 1], r.states[k]);
    }
  }

  /** ... and every control pass that starts in that stretch sends zero, however many commands arrive. */
  lemma LockedOutPassesStop(r: Run, n: nat, m: nat, p: nat, k: nat)
    requires IsRun(r) && Initial(r.states[0]) && n <= p <= k <= m < |r.states|
    requires NoReset(r, n, m) && ZeroedFirst(r, n, m)
    requires Locked(r.states[n]) && Expired(r.states[n].cell, r.states[n].clock)
    requires p < |r.events| && r.events[p] == ControlGet
    ensures !MovesAt(r, k)
  {
    forall j | n <= j <= m
      ensures CmdTimeout in r.states[j].faults
    {
      StaysLocked(r, n, j, m);
    }
    FaultStopsLaterPasses(r, CmdTimeout, n, m, p, k);
  }

  // ----- the same race before ACTIVE

  /** Step p clears the timeout fault on a command that survived. */
  ghost predicate RecoversAt(r: Run, p: nat)
    requires IsRun(r)
  {
    && p < |r.events| && r.events[p] == MonitorPostTimeout
    && exists c: nat, g: nat, j: nat :: JudgedPass(r, g, j, p) && Survives(r, c, g, j)
  }

  /** If the timeout fault was set at n and is not at f, it recovered in between. */
  lemma {:induction false} RecoveredBetween(r: Run, n: nat, f: nat) returns (p: nat)
    requires IsRun(r) && Initial(r.states[0]) && n <= f < |r.states| && NoReset(r, n, f)
    requires CmdTimeout in r.states[n].faults && CmdTimeout !in r.states[f].faults
    ensures n <= p < f && RecoversAt(r, p)
    decreases f
  {
    if CmdTimeout in r.states[f - 1].faults {
      p := f - 1;
      var g, j := RecoversIff(r, p);
      var c: nat :| Survives(r, c, g, j);
    } else {
      p := RecoveredBetween(r, n, f - 1);
    }
  }

  /**
  Once the timeout fault is set, a callback that then checks the faults asks for ACTIVE only after the monitor
  has read a surviving command.
  */
  lemma ActivationNeedsRecovery(r: Run, n: nat, k: nat) returns (f: nat, p: nat)
    requires IsRun(r) && Initial(r.states[0]) && n <= k < |r.states| && NoReset(r, n, k)
    requires CmdTimeout in r.states[n].faults && r.states[k].callback == Permitted
    ensures f < k && r.events[f] == CallbackReadFaults
    ensures f < n || (n <= p < f && RecoversAt(r, p))
  {
    var c, i;
    c, i, f := ActivationHistory(r, k);
    p := 0;
    if n <= f {
      if CmdTimeout in r.states[f].faults {
        FaultInhibits(r.states[f], CmdTimeout);
      }
      p := RecoveredBetween(r, n, f);
    }
  }

  /** The robot is not ACTIVE and no callback is about to ask for it. */
  predicate Waiting(s: State) {
    s.life != Active && s.callback != Permitted
  }

  lemma NextWaiting(s: State, e: Event, next: State)
    requires Enabled(s, e) && next == Next(s, e) && Waiting(s) && CmdTimeout in s.faults && e != Request(Active)
    ensures Waiting(next)
  {
    FaultInhibits(s, CmdTimeout);
  }

  /** A robot whose every command is zeroed before the monitor reads it is never woken by a callback. */
  lemma {:induction false} LockedOutStaysIdle(r: Run, n: nat, k: nat, m: nat)
    requires IsRun(r) && n <= k <= m < |r.states| && NoReset(r, n, m) && ZeroedFirst(r, n, m)
    requires Locked(r.states[n]) && Expired(r.states[n].cell, r.states[n].clock) && Waiting(r.states[n])
    requires forall i | n <= i < m :: r.events[i] != Request(Active)
    ensures Waiting(r.states[k])
    decreases k
  {
    if n < k {
      LockedOutStaysIdle(r, n, k - 1, m);
      StaysLocked(r, n, k - 1, m);
      StepAt(r, k - 1);
      NextWaiting(r.states[k - 1], r.events[k - 1], r.states[k]);
    }
  }
}
