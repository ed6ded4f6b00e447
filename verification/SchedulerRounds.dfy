/** The ends of a drain the scheduler's machine allows are those of the group. */
module SchedulerRounds {
  import opened Bytes
  import GroupSpec
  import GroupConservation
  import GroupDrain
  import Scheduler

  /** How processActivation goes on after a drain whose batch was all delivered. */
  function Ending(report: GroupSpec.Round, left: bool): Scheduler.Outcome {
    if report.wakeAt.Some? then Scheduler.Wake(report.wakeAt.value)
    else if report.stillPending then Scheduler.More
    else if left then Scheduler.Saturated
    else Scheduler.Nothing
  }

  /** A drain of any sound group ends as the machine allows: it goes quiet over pending
      messages only at its parallelism, and while a retry is waiting it asks to be
      woken no later than that retry is due; while a lease runs, no later than it ends; and
      never for a time already past. */
  lemma DrainEndsAllowed(c: GroupSpec.Config, g: GroupSpec.Group, now: int, order: seq<Bytes>,
                         wake: Option<int>, s: Scheduler.State, k: nat)
    requires GroupConservation.Sound(c, g) && GroupSpec.Usable(c)
    requires GroupSpec.Lists(order, GroupSpec.Expired(g, now))
    requires (g.limiter.Some? ==> g.limiter.value.max >= 1)
          && GroupSpec.IsEarliest(wake, GroupSpec.WakeTimes(g, now))
    requires k < |s.threads| && s.threads[k].Draining?
    ensures var p := GroupSpec.Promote(g, now, order);
            GroupConservation.Sound(c, p) && (p.limiter.Some? ==> p.limiter.value.max >= 1) &&
            var r := GroupSpec.DrainRound(c, p, now);
            var left := GroupSpec.PendingCount(r) > 0;
            var end := Ending(GroupSpec.RoundReport(c, p, now, wake), left);
            && Scheduler.Can(s, k, Scheduler.Drain(end, left))
            && (end.Saturated? ==> |r.processing| >= c.parallelism)
            && (r.delayed != [] ==> end.Wake?)
            && (end.Wake? ==> now <= end.at && forall m <- r.delayed :: end.at <= m.scheduledAt)
            && (forall id <- g.processing | now <= g.processing[id].scheduledAt ::
                  end.Wake? && end.at <= g.processing[id].scheduledAt)
  {
    hide GroupSpec.DrainRound, GroupSpec.RoundReport, GroupConservation.Sound, GroupSpec.Promote,
         GroupSpec.PendingCount, GroupSpec.WakeTimes;
    GroupDrain.NotStranded(c, g, now, order, wake);
    GroupDrain.WakesForLeases(c, g, now, order, wake);
    var p := GroupSpec.Promote(g, now, order);
    assert GroupSpec.Credit(c, p) >= 0 by { GroupDrain.SoundCredit(c, p); }
    var r, report := GroupSpec.DrainRound(c, p, now), GroupSpec.RoundReport(c, p, now, wake);
    var left := GroupSpec.PendingCount(r) > 0;
    var end := Ending(report, left);
    assert end.Saturated? ==> |r.processing| >= c.parallelism;
    if r.delayed != [] {
      var due := r.delayed[0].scheduledAt;
      assert report.wakeAt.value <= due;
    }
    forall m <- r.delayed ensures report.wakeAt.Some? && report.wakeAt.value <= m.scheduledAt {
    }
    assert Scheduler.Can(s, k, Scheduler.Drain(end, left));
  }
}
