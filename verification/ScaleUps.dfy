// The scale-up handler: it decides on a NodeGroup as it was listed and carries the decision
// out later on a fresh copy (pkg/events/scaleup.go:171-343).
module ScaleUps {
  import opened Options
  import opened NodeGroups
  import R = RateLimits
  import V = VPSieNodes

  // The desired count to ask for, if any: always one more than the group has.
  // `selects` says that an instance type could be selected, `needed` is the estimate.
  function Decision(spec: Spec, s: Status, canScale: bool, selects: bool, needed: int): Option<int> {
    if !canScale || s.desired >= spec.maxNodes || !selects then None
    else if s.desired - s.ready > 0 || needed <= 0 then None
    else Some(s.desired + 1)
  }

  function Raise(s: Status, target: int, now: int): Status {
    s.(desired := target, lastScale := Some(now))
  }

  // The stored status after a decision is carried out.
  function Executed(s: Status, target: int, now: int, write: V.Write): Status {
    if s.desired < target && write.Applied() then Raise(s, target, now) else s
  }

  function OutcomeOf(s: Status, target: int, write: V.Write): R.Outcome {
    if s.desired >= target then R.AlreadyScaled
    else if write.Written? then R.Raised
    else R.UpdateFailed
  }

  // Carrying a decision out never lowers the desired count, never exceeds what was asked
  // for unless the group is there already, and twice does no more than once.
  lemma ExecutionIdempotent(s: Status, target: int, now: int, write: V.Write, later: int, again: V.Write)
    ensures var t := Executed(s, target, now, write);
            && s.desired <= t.desired
            && (t.desired == s.desired || t.desired == target)
            && (!write.Applied() || s.desired >= target ==> t == s)
            && (t != s ==> t == s.(desired := target, lastScale := Some(now)))
            && (OutcomeOf(s, target, write) == R.Raised <==> s.desired < target && write.Written?)
            && (OutcomeOf(s, target, write) == R.AlreadyScaled <==> s.desired >= target)
            && (write.Applied() ==> t.desired >= target && Executed(t, target, later, again) == t)
            && (OutcomeOf(s, target, write) != R.UpdateFailed ==> t.desired >= target)
  {
  }

  class ScaleUpController {
    const watcher: R.EventWatcher

    constructor (watcher: R.EventWatcher)
      ensures this.watcher == watcher
    {
      this.watcher := watcher;
    }

    method MakeScaleUpDecision(name: string, ng: NodeGroup, selects: bool, needed: int, now: int)
      returns (target: Option<int>)
      ensures target == Decision(ng.spec, ng.status,
                                 R.CanScaleAt(watcher.lastScaleTime, watcher.stabilizationWindow, name, now),
                                 selects, needed)
      ensures target.Some? <==>
                && R.CanScaleAt(watcher.lastScaleTime, watcher.stabilizationWindow, name, now)
                && ng.status.desired < ng.spec.maxNodes && ng.status.desired <= ng.status.ready
                && selects && needed >= 1
      ensures target.Some? ==> target.value == ng.status.desired + 1
    {
      var canScale := watcher.CanScale(name, now);
      if !canScale {
        return None;
      }
      if ng.status.desired >= ng.spec.maxNodes {
        return None;
      }
      if !selects {
        return None;
      }
      var beingProvisioned := ng.status.desired - ng.status.ready;
      if beingProvisioned < 0 {
        beingProvisioned := 0;
      }
      if beingProvisioned > 0 {
        return None;
      }
      if needed <= 0 {
        return None;
      }
      var available := ng.spec.maxNodes - ng.status.desired;
      if available <= 0 {
        return None;
      }
      target := Some(ng.status.desired + 1);
    }

    // `stored` is the persisted NodeGroup; an update that fails changes nothing unless its
    // answer was lost.
    method ExecuteScaleUp(name: string, stored: NodeGroup, target: int, now: int, later: int, write: V.Write)
      returns (outcome: R.Outcome)
      modifies stored, watcher
      ensures stored.status == Executed(old(stored.status), target, now, write)
      ensures outcome == OutcomeOf(old(stored.status), target, write)
      ensures watcher.lastScaleTime == if outcome == R.UpdateFailed then old(watcher.lastScaleTime)
                                       else old(watcher.lastScaleTime)[name := later]
    {
      if stored.status.desired >= target {
        watcher.RecordScaleEvent(name, later);
        return R.AlreadyScaled;
      }
      if write.Applied() {
        stored.status := stored.status.(desired := target, lastScale := Some(now));
      }
      if !write.Written? {
        return R.UpdateFailed;
      }
      watcher.RecordScaleEvent(name, later);
      outcome := R.Raised;
    }
  }
}
