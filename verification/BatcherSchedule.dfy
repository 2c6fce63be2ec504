/** When the batcher flushes: on a full buffer, on lag, on the timer. And when nothing is scheduled although items wait. */
module BatcherSchedule {
  import opened Common
  import opened PayloadBuilder
  import opened BatchFlushing
  import opened Batcher
  import opened BatcherProgress
  import opened BatcherRetry
  import BatcherCounters
  import BatcherSafety

  // ---------------------------------------------------------------------------
  // The decisions of the loop
  // ---------------------------------------------------------------------------

  /** How many items a record adds: an authorized one whose sensor id does not format comes in twice. */
  function ItemCount(c: Config, r: Record): nat {
    match r
    case Authorized(_, sensorId, _) => if c.formats(sensorId) then 1 else 2
    case Unparseable(_) => 1
    case _ => 0
  }

  /** A flush runs and the loop waits for it; all that was pending is in it, unless one was running already. */
  ghost predicate FlushRuns(before: State, n: nat, after: State) {
    && after.control.loop.AwaitFlush? && !after.control.timerArmed
    && after.data.flusher.inFlight.Some?
    && if before.data.flusher.inFlight.Some? then
         after.data.flusher.inFlight == before.data.flusher.inFlight && |after.data.flusher.pending| == n
       else
         |after.data.flusher.inFlight.value| == n && after.data.flusher.pending == [] && after.data.handler.PoisonSend?
  }

  lemma {:induction false} AddAllPends(f: Flusher<Item>, items: seq<Item>)
    ensures AddAll(f, items).pending == f.pending + items && AddAll(f, items).inFlight == f.inFlight
  {
    if items == [] {
      assert f.pending + items == f.pending;
    } else {
      AddAllPends(f, Front(items));
      assert items == Front(items) + [Last(items)];
    }
  }

  lemma ReceivedPends(c: Config, s: State, p: nat)
    requires p < |s.data.cursor| == |s.data.log| && s.data.cursor[p] < |s.data.log[p]|
    ensures var s1 := Received(c, s, p);
      && |s1.data.flusher.pending| == |s.data.flusher.pending| + ItemCount(c, s.data.log[p][s.data.cursor[p]])
      && s1.data.flusher.pending[..|s.data.flusher.pending|] == s.data.flusher.pending
      && s1.data.flusher.inFlight == s.data.flusher.inFlight && s1.data.handler == s.data.handler
      && s1.control.(metrics := s.control.metrics) == s.control
  {
    var o := s.data.cursor[p];
    var items := ItemsOf(c, s.data.log[p][o], p, o);
    AddAllPends(s.data.flusher, items);
    assert |items| == ItemCount(c, s.data.log[p][o]);
    hide AddAll, ItemsOf;
  }

  /** A record that is skipped leaves the buffer alone; any other has it flushed exactly if it is then full, else the lag asked for. */
  lemma FlushesExactlyWhenFull(c: Config, s: State, p: nat)
    requires s.control.loop.Reading? && !s.control.stopping
    requires p < |s.data.cursor| == |s.data.log| && s.data.cursor[p] < |s.data.log[p]|
    ensures var r := s.data.log[p][s.data.cursor[p]];
      var n := |s.data.flusher.pending| + ItemCount(c, r);
      var s1 := Step(c, s, Deliver(p));
      if r.NullValue? || r.Foreign? then s1.control == s.control && s1.data.flusher == s.data.flusher
      else if n >= c.batchSize then FlushRuns(s, n, s1)
      else
        && s1.control.loop.LagCheck? && s1.control.timerArmed == s.control.timerArmed
        && |s1.data.flusher.pending| == n && s1.data.flusher.inFlight == s.data.flusher.inFlight
  {
    ReceivedPends(c, s, p);
    var r := s.data.log[p][s.data.cursor[p]];
    if r.NullValue? || r.Foreign? {
      assert ItemsOf(c, r, p, s.data.cursor[p]) == [];
    } else {
      hide Receive;
    }
  }

  /** The lag decides: with much of it the buffer is flushed now, with little a timer is set for what is pending. */
  lemma LagDecides(c: Config, s: State, lag: nat)
    requires s.control.loop.LagCheck?
    ensures var f, s1 := s.data.flusher, Step(c, s, Lag(lag));
      if lag >= c.batchSize && (f.pending != [] || f.inFlight.Some?) then FlushRuns(s, |f.pending|, s1)
      else
        && s1.control.loop.Reading? && s1.data == s.data
        && (lag < c.batchSize ==> (s1.control.timerArmed <==> s.control.timerArmed || f.pending != []))
        && (lag >= c.batchSize ==> !s1.control.timerArmed)
  {
  }

  /** A timer fires once: if something is pending a flush runs, and its callback waits for it. */
  lemma TimerDecides(c: Config, s: State)
    ensures var f, s1 := s.data.flusher, Step(c, s, TimerFires);
      && !s1.control.timerArmed && s1.control.loop == s.control.loop
      && if s.control.timerArmed && f.pending != [] then
           && s1.control.timerWaiting
           && s1.data.flusher.inFlight == (if f.inFlight.Some? then f.inFlight else Some(f.pending))
           && s1.data.flusher.pending == (if f.inFlight.Some? then f.pending else [])
         else s1.data == s.data && s1.control.timerWaiting == s.control.timerWaiting
  {
  }

  // ---------------------------------------------------------------------------
  // Items that nothing is scheduled for
  // ---------------------------------------------------------------------------

  /** Items are pending, but no flush runs, no timer is set and the loop waits for the next message. */
  ghost predicate Stranded(s: State) {
    && s.data.flusher.pending != []
    && s.data.flusher.inFlight.None? && !s.control.timerArmed
    && s.control.loop.Reading? && !s.control.stopping
  }

  /** The running flush ends successfully, while items are pending for which no timer is set. */
  ghost predicate EndsOverPending(s: State, e: Event) {
    && e.CommitDone? && e.ok && s.data.handler.CommitOffsets?
    && (forall it <- s.data.flusher.Flying() :: it.partition in e.partitions)
    && s.data.flusher.pending != [] && !s.control.timerArmed
    && (s.control.loop.Reading? || s.control.loop.AwaitFlush?) && !s.control.stopping
  }

  /** A process that is down holds nothing, and would resume from what is committed. */
  ghost predicate EmptyWhenDown(s: State) {
    s.control.loop.Down? ==>
      && s.data.flusher == Empty() && s.data.handler.NoHandler?
      && s.data.cursor == s.data.committed == s.data.start
  }

  lemma SettlingStaysUp(s: State, ok: bool)
    requires !s.control.loop.Down?
    ensures !SettleAndResume(s, ok).control.loop.Down?
  {
    hide Settle, Detach;
  }

  lemma AnswersStayUp(c: Config, s: State, e: Event)
    requires HandlerEvent(e) && !s.control.loop.Down?
    ensures !Step(c, s, e).control.loop.Down?
  {
    hide SettleAndResume, Delivered, ToDlqAll, PoisonOf, ValidOf, Fitting, Place, ToMessages, Events, CommitInto, SumEvents;
    var m := s.control.metrics;
    var failing := s.control.(metrics := m.(produceFailure := m.produceFailure + 1));
    match e
    case DlqSendDone(ok, landed) =>
      var d := s.data.(dlq := s.data.dlq + landed);
      SettlingStaysUp(State(d, s.control), false);
      SettlingStaysUp(State(d, failing), false);
    case FitDone(ok) => SettlingStaysUp(State(s.data, failing), false);
    case BatchedSendDone(ok, placed) =>
      if forall pl <- placed :: pl.partition < |s.data.batched| {
        SettlingStaysUp(State(s.data.(batched := Place(s.data.batched, placed)), failing), false);
      }
    case CommitDone(ok, partitions) =>
      SettlingStaysUp(s.(data := s.data.(committed := CommitInto(s.data.committed, s.data.flusher.Flying(), partitions))), ok);
    case _ =>
  }

  lemma LoopStaysUp(c: Config, s: State, e: Event)
    requires !HandlerEvent(e) && !e.Crash? && !s.control.loop.Down?
    ensures !Step(c, s, e).control.loop.Down?
  {
    hide Receive, Detach, Grows, Relevant;
  }

  lemma DownStaysEmpty(c: Config, s: State, e: Event)
    requires s.control.loop.Down? && EmptyWhenDown(s) && !s.control.timerArmed
    ensures EmptyWhenDown(Step(c, s, e))
  {
    hide PlacedAs, Delivered, Fitting, ToDlqAll, PoisonOf, ToMessages, Grows;
  }

  lemma {:induction false} RunEmptyWhenDown(c: Config, log: seq<seq<Record>>, batchedPartitions: nat, es: seq<Event>)
    ensures EmptyWhenDown(After(c, log, batchedPartitions, es))
  {
    if es != [] {
      RunEmptyWhenDown(c, log, batchedPartitions, Front(es));
      BatcherCounters.CountersAddUp(c, log, batchedPartitions, Front(es));
      var s, e := After(c, log, batchedPartitions, Front(es)), Last(es);
      if e.Crash? {
      } else {
        hide Step, EmptyWhenDown;
        if s.control.loop.Down? {
          DownStaysEmpty(c, s, e);
        } else {
          if HandlerEvent(e) {
            AnswersStayUp(c, s, e);
          } else {
            LoopStaysUp(c, s, e);
          }
          UpIsNotDown(Step(c, s, e));
        }
      }
    }
  }

  lemma UpIsNotDown(s: State)
    requires !s.control.loop.Down?
    ensures EmptyWhenDown(s)
  {
  }

  /** A start of a process that is down: it reads from the committed offsets, with an empty buffer, and forgets an earlier stop. */
  lemma StartResumes(c: Config, log: seq<seq<Record>>, batchedPartitions: nat, es: seq<Event>)
    requires After(c, log, batchedPartitions, es).control.loop.Down?
    ensures var s1 := Step(c, After(c, log, batchedPartitions, es), Start);
      && s1.control.loop.Reading? && !s1.control.stopping
      && s1.data.cursor == s1.data.committed && s1.data.flusher == Empty()
  {
    RunEmptyWhenDown(c, log, batchedPartitions, es);
  }

  // ---------------------------------------------------------------------------
  // Stopping
  // ---------------------------------------------------------------------------

  /** The loop has been left at a stop: no timer is set, and once the drain is over no flush runs. */
  ghost predicate Draining(s: State) {
    && s.control.stopping && !s.control.timerArmed
    && (s.control.loop.DrainJoin? || s.control.loop.DrainFlush? || s.control.loop.Ended?)
    && (s.control.loop.Ended? ==> s.data.flusher.inFlight.None? && s.data.handler.NoHandler?)
  }

  lemma LeavingDrains(s: State)
    requires s.control.stopping && (s.data.handler.NoHandler? <==> s.data.flusher.inFlight.None?)
    ensures Draining(LeaveLoop(s)) && LeaveLoop(s).data.cursor == s.data.cursor
    ensures var f, f1 := s.data.flusher, LeaveLoop(s).data.flusher; f1.Flying() + f1.pending == f.Flying() + f.pending
  {
    var f := s.data.flusher;
    assert [] + f.pending == f.pending + [] == f.pending;
  }

  /** A loop that is asked to stop takes no further message: the next one, or the end of the stream, has it drain. */
  lemma StopLeavesTheLoop(c: Config, s: State, e: Event)
    requires BatcherSafety.Good(c, s) && s.control.loop.Reading?
    requires e.StreamEnds?
      || (e.Deliver? && e.partition < |s.data.cursor| == |s.data.log| && s.data.cursor[e.partition] < |s.data.log[e.partition]|)
    ensures var s1 := Step(c, Step(c, s, Stop), e);
      && Draining(s1) && s1.data.cursor == s.data.cursor
      && s1.data.flusher.Flying() + s1.data.flusher.pending == s.data.flusher.Flying() + s.data.flusher.pending
  {
    HandlerFlies(c, s);
    hide BatcherSafety.Good;
    LeavingDrains(s.(control := s.control.(stopping := true)));
    hide Consume, LeaveLoop, Draining;
  }

  lemma SettlingDrains(s: State, ok: bool)
    requires s.control.stopping && !s.control.timerArmed && (s.control.loop.DrainJoin? || s.control.loop.DrainFlush?)
    requires s.data.flusher.inFlight.Some?
    ensures Draining(SettleAndResume(s, ok)) && SettleAndResume(s, ok).data.cursor == s.data.cursor
  {
  }

  lemma DlqAnswerDrains(c: Config, s: State, ok: bool, landed: seq<DlqMessage>)
    requires Draining(s) && s.data.flusher.inFlight.Some?
    ensures Draining(Step(c, s, DlqSendDone(ok, landed))) && Step(c, s, DlqSendDone(ok, landed)).data.cursor == s.data.cursor
  {
    hide SettleAndResume, Delivered, ToDlqAll, PoisonOf, ValidOf, Fitting, Events;
    var m := s.control.metrics;
    SettlingDrains(State(s.data.(dlq := s.data.dlq + landed), s.control), false);
    SettlingDrains(State(s.data.(dlq := s.data.dlq + landed), s.control.(metrics := m.(produceFailure := m.produceFailure + 1))), false);
  }

  lemma AnswerDrains(c: Config, s: State, e: Event)
    requires HandlerEvent(e) && Draining(s) && BatcherSafety.Good(c, s)
    ensures Draining(Step(c, s, e)) && Step(c, s, e).data.cursor == s.data.cursor
  {
    HandlerFlies(c, s);
    hide BatcherSafety.Inv;
    if s.data.flusher.inFlight.Some? {
      hide Step, Draining;
      match e
      case DlqSendDone(ok, landed) => DlqAnswerDrains(c, s, ok, landed);
      case FitDone(ok) => FitAnswerDrains(c, s, ok);
      case BatchedSendDone(ok, placed) => BatchedAnswerDrains(c, s, ok, placed);
      case CommitDone(ok, partitions) => CommitDrains(c, s, ok, partitions);
      case _ =>
    } else {
      NoAnswerWithoutFlush(c, s, e);
      hide Step;
    }
  }

  lemma CommitDrains(c: Config, s: State, ok: bool, partitions: set<nat>)
    requires Draining(s) && s.data.flusher.inFlight.Some?
    ensures Draining(Step(c, s, CommitDone(ok, partitions))) && Step(c, s, CommitDone(ok, partitions)).data.cursor == s.data.cursor
  {
    hide SettleAndResume, CommitInto;
    SettlingDrains(s.(data := s.data.(committed := CommitInto(s.data.committed, s.data.flusher.Flying(), partitions))), ok);
  }

  lemma FitAnswerDrains(c: Config, s: State, ok: bool)
    requires Draining(s) && s.data.flusher.inFlight.Some?
    ensures Draining(Step(c, s, FitDone(ok))) && Step(c, s, FitDone(ok)).data.cursor == s.data.cursor
  {
    hide SettleAndResume, Fitting;
    var m := s.control.metrics;
    SettlingDrains(State(s.data, s.control.(metrics := m.(produceFailure := m.produceFailure + 1))), false);
  }

  lemma BatchedAnswerDrains(c: Config, s: State, ok: bool, placed: seq<Placed>)
    requires Draining(s) && s.data.flusher.inFlight.Some?
    ensures Draining(Step(c, s, BatchedSendDone(ok, placed))) && Step(c, s, BatchedSendDone(ok, placed)).data.cursor == s.data.cursor
  {
    hide SettleAndResume, Fitting, Place, ToMessages, SumEvents;
    var m := s.control.metrics;
    if forall pl <- placed :: pl.partition < |s.data.batched| {
      SettlingDrains(State(s.data.(batched := Place(s.data.batched, placed)), s.control.(metrics := m.(produceFailure := m.produceFailure + 1))), false);
    }
  }

  lemma LoopEventDrains(c: Config, s: State, e: Event)
    requires !HandlerEvent(e) && !e.Crash? && Draining(s)
    ensures Draining(Step(c, s, e)) && Step(c, s, e).data.cursor == s.data.cursor
  {
    hide Grows;
  }

  /** From there on, until the process goes: no message is taken, no timer is set, and once the drain is over nothing runs. */
  lemma {:induction false} StopEndsQuietly(c: Config, log: seq<seq<Record>>, batchedPartitions: nat, es: seq<Event>, more: seq<Event>)
    requires Draining(After(c, log, batchedPartitions, es)) && Crash !in more
    ensures var s1 := After(c, log, batchedPartitions, es + more);
      Draining(s1) && s1.data.cursor == After(c, log, batchedPartitions, es).data.cursor
  {
    if more == [] {
      assert es + more == es;
    } else {
      assert Last(more) in more && forall e <- Front(more) :: e in more;
      StopEndsQuietly(c, log, batchedPartitions, es, Front(more));
      var prior, e := es + Front(more), Last(more);
      assert Front(es + more) == prior && Last(es + more) == e;
      BatcherSafety.RunIsGood(c, log, batchedPartitions, prior);
      hide Step, Draining, BatcherSafety.Good;
      if HandlerEvent(e) {
        AnswerDrains(c, After(c, log, batchedPartitions, prior), e);
      } else {
        LoopEventDrains(c, After(c, log, batchedPartitions, prior), e);
      }
    }
  }

  // ---------------------------------------------------------------------------
  // What is stranded
  // ---------------------------------------------------------------------------

  /** A flush that fails is retried, by the timer or by the drain, so it strands nothing. */
  lemma FailureStrandsNothing(s: State)
    requires s.data.flusher.inFlight.Some? && BatcherSafety.LoopInv(s)
    ensures !Stranded(SettleAndResume(s, false))
  {
  }

  lemma SuccessStrands(s: State)
    requires s.data.flusher.inFlight.Some?
    ensures Stranded(SettleAndResume(s, true))
      <==> s.data.flusher.pending != [] && !s.control.timerArmed
           && (s.control.loop.Reading? || s.control.loop.AwaitFlush?) && !s.control.stopping
  {
  }

  lemma DlqAnswerStrandsNothing(c: Config, s: State, ok: bool, landed: seq<DlqMessage>)
    requires s.data.flusher.inFlight.Some? && BatcherSafety.LoopInv(s)
    ensures !Stranded(Step(c, s, DlqSendDone(ok, landed)))
  {
    hide SettleAndResume, Delivered, ToDlqAll, PoisonOf, ValidOf, Fitting, Events;
    var m := s.control.metrics;
    FailureStrandsNothing(State(s.data.(dlq := s.data.dlq + landed), s.control));
    FailureStrandsNothing(State(s.data.(dlq := s.data.dlq + landed), s.control.(metrics := m.(produceFailure := m.produceFailure + 1))));
  }

  lemma BatchedAnswerStrandsNothing(c: Config, s: State, ok: bool, placed: seq<Placed>)
    requires s.data.flusher.inFlight.Some? && BatcherSafety.LoopInv(s)
    ensures !Stranded(Step(c, s, BatchedSendDone(ok, placed)))
  {
    hide SettleAndResume, Fitting, Place, ToMessages, SumEvents;
    var m := s.control.metrics;
    if forall pl <- placed :: pl.partition < |s.data.batched| {
      FailureStrandsNothing(State(s.data.(batched := Place(s.data.batched, placed)), s.control.(metrics := m.(produceFailure := m.produceFailure + 1))));
    }
  }

  lemma OtherAnswersStrandNothing(c: Config, s: State, e: Event)
    requires HandlerEvent(e) && !e.CommitDone? && BatcherSafety.Good(c, s) && !Stranded(s)
    ensures !Stranded(Step(c, s, e))
  {
    HandlerFlies(c, s);
    hide BatcherSafety.Inv;
    if s.data.flusher.inFlight.Some? {
      var m := s.control.metrics;
      var failing := s.control.(metrics := m.(produceFailure := m.produceFailure + 1));
      match e
      case DlqSendDone(ok, landed) => DlqAnswerStrandsNothing(c, s, ok, landed); hide Step;
      case FitDone(ok) => FailureStrandsNothing(State(s.data, failing)); hide SettleAndResume, Fitting;
      case BatchedSendDone(ok, placed) => BatchedAnswerStrandsNothing(c, s, ok, placed); hide Step;
      case _ =>
    } else {
      NoAnswerWithoutFlush(c, s, e);
      hide Step;
    }
  }

  lemma NoAnswerWithoutFlush(c: Config, s: State, e: Event)
    requires HandlerEvent(e) && s.data.handler.NoHandler?
    ensures Step(c, s, e) == s
  {
  }

  lemma HandlerFlies(c: Config, s: State)
    requires BatcherSafety.Good(c, s)
    ensures s.data.handler != NoHandler <==> s.data.flusher.inFlight.Some?
  {
    hide Fitting, BatcherSafety.AllCovered, BatcherSafety.NoLoss, BatcherSafety.CommitBounds;
  }

  lemma CommitStrands(c: Config, s: State, e: Event)
    requires e.CommitDone? && BatcherSafety.Good(c, s) && !Stranded(s)
    ensures Stranded(Step(c, s, e)) <==> EndsOverPending(s, e)
  {
    HandlerFlies(c, s);
    hide SettleAndResume, CommitInto, BatcherSafety.Inv;
    if s.data.handler.CommitOffsets? {
      var s1 := s.(data := s.data.(committed := CommitInto(s.data.committed, s.data.flusher.Flying(), e.partitions)));
      FailureStrandsNothing(s1);
      SuccessStrands(s1);
    }
  }

  lemma DeliveryStrandsNothing(c: Config, s: State, p: nat)
    requires !Stranded(s)
    ensures !Stranded(Step(c, s, Deliver(p)))
  {
    if s.control.loop.Reading? && !s.control.stopping && p < |s.data.cursor| == |s.data.log| && s.data.cursor[p] < |s.data.log[p]| {
      FlushesExactlyWhenFull(c, s, p);
      hide Step;
    } else {
      hide Consume, Detach;
    }
  }

  lemma LoopStrandsNothing(c: Config, s: State, e: Event)
    requires !HandlerEvent(e) && !e.Deliver? && !Stranded(s) && EmptyWhenDown(s)
    ensures !Stranded(Step(c, s, e))
  {
    hide Grows;
  }

  /**
   * In every reachable state: items come to wait with nothing scheduled for them exactly when a running
   * flush ends successfully over pending items without a timer. That is after the loop or a timer had
   * joined it, for what had come since it was detached.
   */
  lemma StrandsExactlyAfterAJoin(c: Config, log: seq<seq<Record>>, batchedPartitions: nat, es: seq<Event>, e: Event)
    requires !Stranded(After(c, log, batchedPartitions, es))
    ensures var s := After(c, log, batchedPartitions, es); Stranded(Step(c, s, e)) <==> EndsOverPending(s, e)
  {
    BatcherSafety.RunIsGood(c, log, batchedPartitions, es);
    RunEmptyWhenDown(c, log, batchedPartitions, es);
    var s := After(c, log, batchedPartitions, es);
    hide After, Step, Stranded, BatcherSafety.Good;
    match e
    case CommitDone(_, _) => CommitStrands(c, s, e);
    case Deliver(p) => DeliveryStrandsNothing(c, s, p);
    case _ =>
      if HandlerEvent(e) {
        OtherAnswersStrandNothing(c, s, e);
      } else {
        LoopStrandsNothing(c, s, e);
      }
  }

  predicate NextIsSkipped(s: State, p: nat) {
    && p < |s.data.cursor| == |s.data.log| && s.data.cursor[p] < |s.data.log[p]|
    && (s.data.log[p][s.data.cursor[p]].NullValue? || s.data.log[p][s.data.cursor[p]].Foreign?)
  }

  /** Stranded items wait until the next record that is not skipped, a stop, the end of the stream or a crash. */
  lemma StrandedUntilTheNextRecord(c: Config, s: State, e: Event)
    requires Stranded(s) && s.data.handler.NoHandler? && !e.Stop? && !e.StreamEnds? && !e.Crash?
    requires e.Deliver? ==> NextIsSkipped(s, e.partition)
    ensures Stranded(Step(c, s, e)) && Step(c, s, e).data.flusher == s.data.flusher
  {
    if e.Deliver? {
      FlushesExactlyWhenFull(c, s, e.partition);
      hide Step;
    }
  }

  // ---------------------------------------------------------------------------
  // A run that strands a record
  // ---------------------------------------------------------------------------

  /** The first record is flushed by the timer; the second comes meanwhile, and its timer joins that flush, which succeeds. */
  function JoinAndStrand(c: Config, x: Record): seq<Event>
    requires x.Authorized?
  {
    DetachThenRead() + [Lag(0), TimerFires] + (Sends(c, [ItemAt(x, 0)]) + [CommitDone(true, PartitionsOf([ItemAt(x, 0)]))])
  }

  lemma TimerJoins(c: Config, s: State)
    requires s.control.loop.LagCheck? && s.data.flusher.pending != [] && s.data.flusher.inFlight.Some? && c.batchSize > 0
    ensures Run(c, s, [Lag(0), TimerFires])
      == State(s.data, s.control.(loop := Reading, timerArmed := false, timerWaiting := true))
  {
    RunOne(c, s, Lag(0));
    RunOne(c, Step(c, s, Lag(0)), TimerFires);
    hide Run;
    RunConcat(c, s, [Lag(0)], [TimerFires]);
    assert [Lag(0)] + [TimerFires] == [Lag(0), TimerFires];
  }

  lemma FlushEndsOverPending(c: Config, s: State, batch: seq<Item>)
    requires s.data.handler.CommitOffsets? && s.data.flusher.inFlight == Some(batch) && s.data.flusher.pending != []
    requires s.control.loop.Reading? && !s.control.timerArmed && !s.control.stopping
    ensures var s1 := Step(c, s, CommitDone(true, PartitionsOf(batch)));
      Stranded(s1) && s1.data.flusher.pending == s.data.flusher.pending && s1.data.cursor == s.data.cursor
  {
  }

  /** For every two records that parse there is such a run, with no failure in it. */
  lemma ARecordIsStranded(c: Config, x: Record, y: Record)
    requires TwoRecords(c, x, y)
    ensures var s := After(c, [[x, y]], 1, JoinAndStrand(c, x));
      Stranded(s) && s.data.flusher.pending == [ItemAt(y, 1)] && s.data.cursor == [2]
  {
    var a, b := ItemAt(x, 0), ItemAt(y, 1);
    var s0 := After(c, [[x, y]], 1, DetachThenRead());
    SecondIsDelivered(c, x, y);
    ValidPair(c, x, y);
    TimerJoins(c, s0);
    var joined := [Lag(0), TimerFires];
    var s1 := Run(c, s0, joined);
    var s2 := Run(c, s1, Sends(c, [a]));
    var commit := CommitDone(true, PartitionsOf([a]));
    assert s1.data.flusher.Flying() == [a] && s1.data.flusher.pending == [b] && s1.data.cursor == [2] && s1.data.batched != [];
    hide Run, Sends, Fitting, ToMessages, DetachThenRead, ValidOf, Formats, AppendTo;
    SendsPublish(c, s1);
    FlushEndsOverPending(c, s2, [a]);
    hide Step;
    RunOne(c, s2, commit);
    RunConcat(c, s1, Sends(c, [a]), [commit]);
    RunConcat(c, Init([[x, y]], 1), DetachThenRead(), joined);
    RunConcat(c, Init([[x, y]], 1), DetachThenRead() + joined, Sends(c, [a]) + [commit]);
  }
}
