/** The hardware watchdog is fed only as often as the control loop checks in. */
module ProtocolWatchdog {
  import opened Protocol

  /** Event k is a feed attempt at which every subsystem has checked in, so the hardware is fed. */
  ghost predicate FedAt(r: Run, k: nat)
    requires IsRun(r) && k < |r.events|
  {
    r.events[k] == MonitorFeed && r.states[k].safetyIn && r.states[k].controlIn
  }

  /** Control checks in at c and no feed is attempted between c and k. */
  ghost predicate CheckedInSince(r: Run, c: nat, k: nat)
    requires IsRun(r) && k < |r.states|
  {
    c < k && r.events[c] == ControlCheckIn && forall j | c < j < k :: r.events[j] != MonitorFeed
  }

  /** How one more event changes which check-ins count. */
  ghost predicate StillCounts(r: Run, c: nat, k: nat)
    requires IsRun(r) && k < |r.events|
  {
    if c == k then r.events[k] == ControlCheckIn else CheckedInSince(r, c, k) && r.events[k] != MonitorFeed
  }

  lemma CheckedInStep(r: Run, c: nat, k: nat)
    requires IsRun(r) && k < |r.events|
    ensures CheckedInSince(r, c, k + 1) <==> StillCounts(r, c, k)
  {
  }

  /** The control flag records exactly a check-in since the last feed attempt. */
  lemma {:induction false} ControlFlag(r: Run, k: nat)
    requires IsRun(r) && Initial(r.states[0]) && k < |r.states|
    ensures r.states[k].controlIn <==> exists c: nat :: CheckedInSince(r, c, k)
  {
    if k > 0 {
      ControlFlag(r, k - 1);
      StepAt(r, k - 1);
      forall c: nat
        ensures CheckedInSince(r, c, k) <==> StillCounts(r, c, k - 1)
      {
        CheckedInStep(r, c, k - 1);
      }
      if r.events[k - 1] == ControlCheckIn {
        assert CheckedInSince(r, k - 1, k);
      } else if r.states[k].controlIn {
        var c: nat :| CheckedInSince(r, c, k - 1);
        assert CheckedInSince(r, c, k);
      }
    }
  }

  /** The monitor has always checked in by the time it attempts a feed. */
  lemma {:induction false} SafetyFlag(r: Run, k: nat)
    requires IsRun(r) && Initial(r.states[0]) && k < |r.states|
    ensures r.states[k].monitor == Feeding ==> r.states[k].safetyIn
  {
    if k > 0 {
      SafetyFlag(r, k - 1);
      StepAt(r, k - 1);
    }
  }

  /** A monitor pass feeds exactly when control has checked in since the previous attempt, or since the start. */
  lemma FedExactlyWhen(r: Run, k: nat)
    requires IsRun(r) && Initial(r.states[0]) && k < |r.events| && r.events[k] == MonitorFeed
    ensures FedAt(r, k) <==> exists c: nat :: CheckedInSince(r, c, k)
  {
    ControlFlag(r, k);
    SafetyFlag(r, k);
    StepAt(r, k);
  }

  /** Between two feeds control has checked in: no check-in supports two of them. */
  lemma CheckInBetweenFeeds(r: Run, f: nat, k: nat) returns (c: nat)
    requires IsRun(r) && Initial(r.states[0]) && f < k < |r.events| && FedAt(r, f) && FedAt(r, k)
    ensures f < c < k && r.events[c] == ControlCheckIn
  {
    FedExactlyWhen(r, k);
    c :| CheckedInSince(r, c, k);
  }

  /** The number of feeds among the events from i up to k. */
  ghost function Feeds(r: Run, i: nat, k: nat): nat
    requires IsRun(r) && i <= k <= |r.events|
    decreases k
  {
    if i == k then 0 else Feeds(r, i, k - 1) + if FedAt(r, k - 1) then 1 else 0
  }

  /** The number of control check-ins among the events from i up to k. */
  ghost function CheckIns(r: Run, i: nat, k: nat): nat
    requires IsRun(r) && i <= k <= |r.events|
    decreases k
  {
    if i == k then 0 else CheckIns(r, i, k - 1) + if r.events[k - 1] == ControlCheckIn then 1 else 0
  }

  function Credit(s: State): nat { if s.controlIn then 1 else 0 }

  /** Over any stretch of a run, feeds plus the credit left never exceed check-ins plus the credit at its start. */
  lemma {:induction false} FeedsAreEarned(r: Run, i: nat, k: nat)
    requires IsRun(r) && i <= k <= |r.events|
    ensures Feeds(r, i, k) + Credit(r.states[k]) <= CheckIns(r, i, k) + Credit(r.states[i])
    decreases k
  {
    if i < k {
      FeedsAreEarned(r, i, k - 1);
      StepAt(r, k - 1);
    }
  }

  /** On every prefix of a run the feeds do not exceed the control check-ins. */
  lemma FeedsNeverExceedCheckIns(r: Run, k: nat)
    requires IsRun(r) && Initial(r.states[0]) && k <= |r.events|
    ensures Feeds(r, 0, k) <= CheckIns(r, 0, k)
  {
    FeedsAreEarned(r, 0, k);
  }

  /** When control stops checking in, the hardware is fed at most once more. */
  lemma OneFeedAfterLastCheckIn(r: Run, i: nat, k: nat)
    requires IsRun(r) && i <= k <= |r.events| && forall j | i <= j < k :: r.events[j] != ControlCheckIn
    ensures Feeds(r, i, k) <= 1
  {
    FeedsAreEarned(r, i, k);
    NoCheckIns(r, i, k);
  }

  lemma {:induction false} NoCheckIns(r: Run, i: nat, k: nat)
    requires IsRun(r) && i <= k <= |r.events| && forall j | i <= j < k :: r.events[j] != ControlCheckIn
    ensures CheckIns(r, i, k) == 0
    decreases k
  {
    if i < k {
      NoCheckIns(r, i, k - 1);
    }
  }
}
