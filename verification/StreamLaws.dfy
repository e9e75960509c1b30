/** Which streams a cycle starts, ends and times out, run by run. */
module StreamLaws {
  import opened Prelude
  import opened Gate
  import opened Projections
  import opened Controllers
  import opened Supervisors

  /** The run's stream is to be started: its runtime is attached, and the stream was neither started nor ended before. */
  ghost predicate Starts(s: Streams, active: map<ItemId, Assignment>, items: seq<ItemId>, w: World, run: RunId) {
    && run !in w.detached && run !in s.consumed && run !in s.running
    && exists item :: item in items && item in active && active[item].run == run
  }

  /** The queue carries the end of the run's stream. */
  predicate Ends(queue: seq<Message>, run: RunId) {
    exists i :: 0 <= i < |queue| && queue[i].event.None? && queue[i].run == run
  }

  function StartTime(s: Streams, run: RunId): Option<int> {
    if run in s.startedAt then Some(s.startedAt[run]) else None
  }

  lemma {:induction false} StartsAreExact(s: Streams, active: map<ItemId, Assignment>, items: seq<ItemId>, w: World, run: RunId)
    requires Elems(items) <= active.Keys
    ensures var t, starts := StartStreams(s, active, items, w), Starts(s, active, items, w, run);
      && t.consumed == s.consumed && t.queue == s.queue
      && (run in t.running <==> run in s.running || starts)
      && (run in t.launched <==> run in s.launched || starts)
      && StartTime(t, run) == (if starts then Some(w.startTime(run)) else StartTime(s, run))
  {
    if items != [] {
      var init, item := items[..|items| - 1], items[|items| - 1];
      assert items == init + [item];
      StartsAreExact(s, active, init, w, run);
      StartsOneMore(s, active, init, item, w, run);
    }
  }

  lemma StartsOneMore(s: Streams, active: map<ItemId, Assignment>, init: seq<ItemId>, item: ItemId, w: World, run: RunId)
    requires item in active
    ensures Starts(s, active, init + [item], w, run) <==>
      || Starts(s, active, init, w, run)
      || (run == active[item].run && run !in w.detached && run !in s.consumed && run !in s.running)
  {
    assert item in init + [item];
    forall x ensures x in init + [item] <==> x in init || x == item {
    }
  }

  lemma {:induction false} EndsAreExact(s: Streams, queue: seq<Message>, run: RunId)
    ensures var t, ends := Drained(s, queue), Ends(queue, run);
      && (run in t.consumed <==> run in s.consumed || ends)
      && (run in t.running <==> run in s.running && !ends)
      && StartTime(t, run) == (if ends then None else StartTime(s, run))
      && t.launched == s.launched && t.queue == s.queue
  {
    if queue != [] {
      var init, m := queue[..|queue| - 1], queue[|queue| - 1];
      assert queue == init + [m];
      EndsAreExact(s, init, run);
      EndsOneMore(init, m, run);
    }
  }

  lemma EndsOneMore(init: seq<Message>, m: Message, run: RunId)
    ensures Ends(init + [m], run) <==> Ends(init, run) || (m.event.None? && m.run == run)
  {
    var all := init + [m];
    assert all[|init|] == m;
    if Ends(init, run) {
      var i :| 0 <= i < |init| && init[i].event.None? && init[i].run == run;
      assert all[i] == init[i];
    }
  }

  /** When the run's stream was started, as a cycle that has started its streams knows it. */
  ghost function KnownStart(s: Streams, c: Controller, w: World, run: RunId): Option<int>
    requires Lists(w.listing)
  {
    if Starts(s, c.active, w.listing(c.active), w, run) then Some(w.startTime(run)) else StartTime(s, run)
  }

  /** An active run that has been going for as long as the policy allows, and has not ended. */
  ghost predicate TimesOut(s: Streams, c: Controller, policy: Policy, w: World, run: RunId)
    requires Lists(w.listing)
  {
    && policy.timeout.Some? && (exists item :: item in c.active && c.active[item].run == run)
    && !Ends(s.queue + w.arrivals, run)
    && KnownStart(s, c, w, run).Some? && w.now - KnownStart(s, c, w, run).value >= policy.timeout.value
  }

  /** One cycle: streams of active attached runs start once; a run is consumed by the end of its stream or by a timeout. */
  lemma CyclesMoveStreams(s: Streams, c: Controller, policy: Policy, w: World, run: RunId)
    requires Lists(w.listing)
    ensures var t, queue := StreamsAfter(s, c, policy, w), s.queue + w.arrivals;
      var starts := Starts(s, c.active, w.listing(c.active), w, run);
      && t.queue == []
      && (run in t.launched <==> run in s.launched || starts)
      && (run in t.running <==> (run in s.running || starts) && !Ends(queue, run))
      && StartTime(t, run) == (if Ends(queue, run) then None else KnownStart(s, c, w, run))
      && (run in t.consumed <==> run in s.consumed || Ends(queue, run) || TimesOut(s, c, policy, w, run))
  {
    hide StartStreams, Drained, Starts, Ends;
    var items := w.listing(c.active);
    StartsAreExact(s, c.active, items, w, run);
    var started := StartStreams(s, c.active, items, w);
    EndsAreExact(started, started.queue + w.arrivals, run);
    var drained := Drained(started, started.queue + w.arrivals).(queue := []);
    if policy.timeout.Some? {
      OverdueIsExact(drained, c.active, items, w.now, policy.timeout.value, run);
    }
  }

  lemma OverdueIsExact(s: Streams, active: map<ItemId, Assignment>, items: seq<ItemId>, now: int, timeout: int, run: RunId)
    requires Elems(items) == active.Keys
    ensures run in Overdue(s, active, items, now, timeout) <==>
      && (exists item :: item in active && active[item].run == run)
      && StartTime(s, run).Some? && now - StartTime(s, run).value >= timeout
  {
  }

  /** A failure of an item that is not active any more is marked and ends the hand-over; nothing is retried. */
  lemma LateFailureEndsHandOver(p: Progress, batch: Batch, policy: Policy, w: World)
    requires batch.item !in p.ctrl.active && FirstFailure(batch.events, w.findings(batch.item), 0).Some?
    ensures var q, f := HandOne(p, batch, policy, w), FirstFailure(batch.events, w.findings(batch.item), 0).value;
      && q.ctrl == MarkRuntimeFailure(p.ctrl, batch.item, f.code) && q.fault == Some(NotActive)
      && q.retried == p.retried && q.failures == p.failures
  {
    hide FirstFailure;
  }

  /** A failure of an active item is marked even where it is retried at once. */
  lemma FailureIsMarkedFirst(p: Progress, batch: Batch, policy: Policy, w: World)
    requires batch.item in p.ctrl.active && FirstFailure(batch.events, w.findings(batch.item), 0).Some?
    ensures var q, item, f := HandOne(p, batch, policy, w), batch.item, FirstFailure(batch.events, w.findings(batch.item), 0).value;
      var marked := MarkRuntimeFailure(p.ctrl, item, f.code);
      || q.ctrl == marked
      || q.ctrl == Retry(marked, item, None, w.destroyed(item), w.launcher).ctrl
  {
    hide FirstFailure, MarkRuntimeFailure, Retry;
  }
}
