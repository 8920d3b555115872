/** What every step does to the priority tree: which ids it knows, which of them
    are ready, and when the loop is woken. */
module H2Wakeups {
  import opened Common
  import opened StreamBuffers
  import opened H2Send
  import opened H2System

  /** The id leaves the scheduler in this step. */
  predicate Leaves(s: System, s': System, id: int) { Live(s, id) && !Live(s', id) }

  /** A stream that was put into the tree by its opening or by its priority stays
      there until it is ended or closed. */
  ghost predicate TreeFollows(s: System, step: Step, s': System)
  {
    forall id :: id in s'.sched.tree <==>
      || (step.RegisterStep? && step.id == id)
      || (step.PriorityStep? && id in step.added)
      || (id in s.sched.tree && !Leaves(s, s', id))
  }

  /** A stream becomes ready when bytes or an end are handed over for it, or when
      a window it needs has moved; it stops being ready when it leaves, or when its
      turn comes and nothing of it can be sent. */
  ghost predicate ReadyFollows(s: System, step: Step, s': System)
  {
    forall id :: id in s'.sched.ready <==>
      || (HandsOver(s, step, id) && Live(s, id))
      || (step.NotifyStep? && s.notices != [] && (s.notices[0] == 0 || s.notices[0] == id) && Live(s, id))
      || (id in s.sched.ready && !Leaves(s, s', id)
          && !(step.SendStep? && step.id == id && TookNothing(s, s', id))
          && !(step.RegisterStep? && step.id == id && id !in s.sched.tree))
  }

  /** No byte of an open stream was taken. */
  predicate TookNothing(s: System, s': System, id: int)
  {
    Live(s, id) && Live(s', id) && s'.sched.buffers[id].data == s.sched.buffers[id].data
  }

  predicate HandsOver(s: System, step: Step, id: int)
  {
    match step
    case PushStep(i, _) => i == id && Live(s, id) && !s.sched.buffers[id].complete
    case EndStep(i) => i == id
    case TrailersStep(i, _) => i == id
    case _ => false
  }

  /** The loop is woken by whatever may give it something to do, and the flag is
      cleared by the loop alone. */
  predicate WakeFollows(s: System, step: Step, s': System)
  {
    match step
    case PushStep(id, _) => s'.sched.hasData == (s.sched.hasData || HandsOver(s, step, id))
    case EndStep(id) => s'.sched.hasData == (s.sched.hasData || Live(s, id))
    case TrailersStep(id, _) => s'.sched.hasData == (s.sched.hasData || Live(s, id))
    case CloseStep(id) => s'.sched.hasData == (s.sched.hasData || Live(s, id))
    case NotifyStep => s'.sched.hasData
    case PriorityStep(_) => s'.sched.hasData
    case WakeStep => s'.sched.hasData
    case UnparkStep => !s'.sched.hasData
    case SendStep(id, _) => s'.sched.hasData == (s.sched.hasData || GoneNow(s, s', id))
    case _ => s'.sched.hasData == s.sched.hasData
  }

  /** The library refused the stream, so that it was closed. */
  predicate GoneNow(s: System, s': System, id: int)
  {
    Leaves(s, s', id) && s'.history.Then? && s'.history.obs == Gone(id)
  }

  /** What one call does to the tree and to the flag. */
  lemma OutcomeFollows(s: Sched, w: Windows, id: int, r: Sent)
    requires Tidy(s) && id in s.ready && id in w.streams && Outcome(s, w, id, r)
    ensures r.sched.tree == if id in r.sched.buffers then s.tree else s.tree - {id}
    ensures r.sched.hasData == (s.hasData || r.closed)
    ensures r.closed ==> id !in r.sched.buffers
    ensures r.sched.buffers.Keys == if id in r.sched.buffers then s.buffers.Keys else s.buffers.Keys - {id}
    ensures id in r.sched.buffers ==>
              r.sched.ready == if r.sched.buffers[id].data == s.buffers[id].data then s.ready - {id} else s.ready
    ensures id !in r.sched.buffers ==> r.sched.ready == s.ready - {id}
  {
  }

  lemma SendFollows(s: System, id: int, r: Sent, s': System, step: Step)
    requires Base(s) && id in s.sched.ready && step.SendStep? && step.id == id
    requires Outcome(s.sched, s.windows, id, r) && s'.sched == r.sched
    requires id !in r.sched.buffers ==> (r.closed <==> s'.history.Then? && s'.history.obs == Gone(id))
    ensures TreeFollows(s, step, s') && ReadyFollows(s, step, s') && WakeFollows(s, step, s')
  {
    OutcomeFollows(s.sched, s.windows, id, r);
  }

  lemma SendLogsClose(s: System, id: int, r: Sent)
    requires Base(s) && id in s.sched.ready && (s.runner == AtHead || s.runner.InBatch?)
    requires Outcome(s.sched, s.windows, id, r)
    ensures var h := AfterSend(s, id, r).history;
            r.closed ==> h.Then? && h.obs == Gone(id)
    ensures var h := AfterSend(s, id, r).history;
            !r.closed && id !in r.sched.buffers ==> h.Then? && h.obs.FrameSent?
  {
  }

  lemma AppFollows(s: System, step: Step, s': System)
    requires Base(s) && Enabled(s, step) && IsApp(step) && s' == Next(s, step)
    ensures TreeFollows(s, step, s') && ReadyFollows(s, step, s') && WakeFollows(s, step, s')
  {
  }

  lemma TaskFollows(s: System, step: Step, s': System)
    requires Base(s) && Enabled(s, step) && IsTask(step) && !step.SendStep? && s' == Next(s, step)
    ensures TreeFollows(s, step, s') && ReadyFollows(s, step, s') && WakeFollows(s, step, s')
  {
  }

  lemma ReaderFollows(s: System, step: Step, s': System)
    requires Base(s) && Enabled(s, step) && !IsApp(step) && !IsTask(step) && s' == Next(s, step)
    ensures TreeFollows(s, step, s') && ReadyFollows(s, step, s') && WakeFollows(s, step, s')
  {
  }

  /** Over every run, whatever the step. */
  lemma StepsFollow(s: System, step: Step)
    requires Base(s) && Enabled(s, step)
    ensures TreeFollows(s, step, Next(s, step)) && ReadyFollows(s, step, Next(s, step))
    ensures WakeFollows(s, step, Next(s, step))
  {
    if step.SendStep? {
      var r := SendData(s.sched, s.windows, step.id, step.fault);
      SendOutcome(s.sched, s.windows, step.id, step.fault);
      SendLogsClose(s, step.id, r);
      SendFollows(s, step.id, r, Next(s, step), step);
    } else if IsApp(step) {
      AppFollows(s, step, Next(s, step));
    } else if IsTask(step) {
      TaskFollows(s, step, Next(s, step));
    } else {
      ReaderFollows(s, step, Next(s, step));
    }
  }
}
