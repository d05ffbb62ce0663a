/** The worker as the engine sees it and the worker over its driver are one
    loop: every step of the latter is made of the engine's steps. */
module WorkerLink {
  import opened Basics
  import Registry
  import EngineRuns
  import DeviceWorker
  import Gmk67Driver

  type Engine = Registry.Engine
  type Worker = DeviceWorker.Worker

  /** What the engine queues as `a` reaches the driver as `op`. */
  predicate Matches(op: DeviceWorker.WorkerOp, a: Registry.Ask) {
    match op
    case GetKeycode(k) => a == Registry.GetKeycode(k)
    case SetKeycode(k, v) => a == Registry.SetKeycode(k, v)
    case Commit => a.Commit?
    case Macro => a.GetMacro? || a.SetMacro?
    case SetLighting(_) => a.SetLighting?
    case GetLighting => a.GetLighting?
  }

  /** Worker `id` of the engine is this one, between two commands. */
  ghost predicate Linked(w: Worker, s: Engine, id: Registry.WorkerId) {
    && id in s.workers
    && var e := s.workers[id];
       && |w.queue| == |e.queue|
       && (forall i :: 0 <= i < |w.queue| ==> Matches(w.queue[i], e.queue[i].ask))
       && e.serving.None?
       && (w.running <==> e.phase.Running?)
       && (w.failed ==> !w.running)
       && (w.closed ==> !EngineRuns.HasSender(s, id))
  }

  /** The engine's labels for a step of the worker: taking a command and
      finishing it, failing in a debounced commit, or hanging up; none for a
      debounced commit that leaves it running. */
  function LabelsOf(e: DeviceWorker.Event, w': Worker, id: Registry.WorkerId): seq<EngineRuns.Label> {
    match e
    case Serve(_) => [EngineRuns.Take(id), EngineRuns.Finish(id, !w'.running)]
    case Timer => if w'.running then [] else [EngineRuns.CommitFailed(id)]
    case Drain => [EngineRuns.HangUp(id)]
    case _ => []
  }

  lemma SameSenders(s: Engine, s': Engine, id: Registry.WorkerId)
    requires s'.devices == s.devices && s'.inbox == s.inbox && s'.tasks == s.tasks
    ensures EngineRuns.HasSender(s', id) == EngineRuns.HasSender(s, id)
  {
  }

  /** What a step does to the fields the engine knows. */
  lemma Frame(w: Worker, e: DeviceWorker.Event, w': Worker)
    requires DeviceWorker.Step(w, e, w') && (w.failed ==> !w.running)
    ensures w'.failed ==> !w'.running
    ensures w'.closed == (w.closed || e.Hangup?)
    ensures e.Drain? ==> w.closed && w.running && !w'.running
    ensures e.Serve? || e.Timer? ==> w.running
    ensures e.Timer? ==> w.queue == []
    ensures e.Elapse? || e.Arrive? || e.Hangup? ==> w'.running == w.running
  {
    hide Gmk67Driver.CommitStep;
    hide Gmk67Driver.SetStep;
    hide Gmk67Driver.LightStep;
  }

  lemma ServeIsTakeAndFinish(w: Worker, reply: DeviceWorker.Reply, w': Worker, s: Engine, id: Registry.WorkerId)
    returns (s': Engine)
    requires Linked(w, s, id) && DeviceWorker.Step(w, DeviceWorker.Serve(reply), w')
    ensures EngineRuns.Steps(s, [EngineRuns.Take(id), EngineRuns.Finish(id, !w'.running)], s') && Linked(w', s', id)
    ensures s.workers[id].queue != []
    ensures s'.answered == s.answered + [Registry.Answer(s.workers[id].queue[0].reply, Registry.Served)]
    ensures s'.issued == s.issued
  {
    Frame(w, DeviceWorker.Serve(reply), w');
    DeviceWorker.QueueStep(w, DeviceWorker.Serve(reply), w');
    hide DeviceWorker.Step;
    hide EngineRuns.Steps;
    hide EngineRuns.HasSender;
    var s1 := EngineRuns.Next(s, EngineRuns.Take(id));
    EngineRuns.OneStep(s, EngineRuns.Take(id));
    s' := EngineRuns.Next(s1, EngineRuns.Finish(id, !w'.running));
    EngineRuns.StepsGrow(s, [EngineRuns.Take(id)], s1, EngineRuns.Finish(id, !w'.running));
    assert [EngineRuns.Take(id)] + [EngineRuns.Finish(id, !w'.running)] == [EngineRuns.Take(id), EngineRuns.Finish(id, !w'.running)];
    SameSenders(s, s', id);
  }

  /** Every step of the worker but an arrival or a hang-up of its last sender,
      which are the engine's doing, is this path of the engine. */
  lemma WorkerStepIsEnginePath(w: Worker, e: DeviceWorker.Event, w': Worker, s: Engine, id: Registry.WorkerId)
    returns (s': Engine)
    requires Linked(w, s, id) && DeviceWorker.Step(w, e, w') && !e.Arrive? && !e.Hangup?
    ensures EngineRuns.Steps(s, LabelsOf(e, w', id), s') && Linked(w', s', id)
    ensures s'.answered == s.answered + if e.Serve? then [Registry.Answer(s.workers[id].queue[0].reply, Registry.Served)] else []
  {
    if e.Serve? {
      s' := ServeIsTakeAndFinish(w, e.reply, w', s, id);
    } else {
      Frame(w, e, w');
      DeviceWorker.QueueStep(w, e, w');
      hide DeviceWorker.Step;
      hide EngineRuns.HasSender;
      s' := s;
      if LabelsOf(e, w', id) != [] {
        var l := LabelsOf(e, w', id)[0];
        s' := EngineRuns.Next(s, l);
        EngineRuns.OneStep(s, l);
        SameSenders(s, s', id);
      }
    }
  }

  /** The other two: a command that goes through to the worker's queue, and the
      last sender going away. */
  lemma ArrivalIsDispatch(w: Worker, op: DeviceWorker.WorkerOp, w': Worker, s: Engine, id: Registry.WorkerId,
                          ask: Registry.WorkerOp)
    requires Linked(w, s, id) && DeviceWorker.Step(w, DeviceWorker.Arrive(op), w') && Matches(op, ask.ask)
    ensures Linked(w', Registry.Sent(s, id, ask), id)
  {
    hide EngineRuns.HasSender;
    SameSenders(s, Registry.Sent(s, id, ask), id);
  }

  lemma HangupIsLastSender(w: Worker, w': Worker, s: Engine, id: Registry.WorkerId)
    requires Linked(w, s, id) && DeviceWorker.Step(w, DeviceWorker.Hangup, w') && !EngineRuns.HasSender(s, id)
    ensures Linked(w', s, id)
  {
  }

  // ── What the engine's invariants say of the worker ─────────────────────

  lemma {:induction false} StepsKeepInvariants(s: Engine, labels: seq<EngineRuns.Label>, t: Engine)
    requires EngineRuns.Steps(s, labels, t)
    requires EngineRuns.RegistryGood(s) && EngineRuns.QueuesGood(s) && EngineRuns.Conserved(s)
    ensures EngineRuns.RegistryGood(t) && EngineRuns.QueuesGood(t) && EngineRuns.Conserved(t)
    decreases |labels|
  {
    hide EngineRuns.Next;
    hide EngineRuns.Enabled;
    hide EngineRuns.RegistryGood;
    hide EngineRuns.QueuesGood;
    hide EngineRuns.Conserved;
    if labels != [] {
      EngineRuns.EngineStep(s, labels[0]);
      StepsKeepInvariants(EngineRuns.Next(s, labels[0]), labels[1..], t);
    }
  }

  lemma LastAnswerHeld(s: Engine, before: seq<Registry.Answer>, r: Registry.ReplyId)
    requires s.answered == before + [Registry.Answer(r, Registry.Served)]
    ensures r in EngineRuns.Held(s, EngineRuns.AnsweredOnce)
  {
    EngineRuns.AnswersGrow(before, Registry.Answer(r, Registry.Served));
  }

  /** Reply conservation reaches the worker over its driver: in any good engine
      state, serving a command keeps the engine's invariants and leaves the
      sender of that command answered, once, and nowhere else. */
  lemma ServingAnswersOnce(w: Worker, reply: DeviceWorker.Reply, w': Worker, s: Engine, id: Registry.WorkerId)
    returns (s': Engine)
    requires Linked(w, s, id) && DeviceWorker.Step(w, DeviceWorker.Serve(reply), w')
    requires EngineRuns.RegistryGood(s) && EngineRuns.QueuesGood(s) && EngineRuns.Conserved(s)
    ensures Linked(w', s', id) && s.workers[id].queue != []
    ensures EngineRuns.RegistryGood(s') && EngineRuns.QueuesGood(s') && EngineRuns.Conserved(s')
    ensures var r := s.workers[id].queue[0].reply;
            && EngineRuns.Held(s', EngineRuns.AnsweredOnce)[r] == 1
            && forall p :: p != EngineRuns.AnsweredOnce ==> EngineRuns.Held(s', p)[r] == 0
  {
    s' := ServeIsTakeAndFinish(w, reply, w', s, id);
    hide DeviceWorker.Step;
    hide Linked;
    hide EngineRuns.Steps;
    hide EngineRuns.RegistryGood;
    hide EngineRuns.QueuesGood;
    hide EngineRuns.Held;
    StepsKeepInvariants(s, [EngineRuns.Take(id), EngineRuns.Finish(id, !w'.running)], s');
    var r := s.workers[id].queue[0].reply;
    LastAnswerHeld(s', s.answered, r);
    hide EngineRuns.Conserved;
    EngineRuns.HeldOnce(s', EngineRuns.AnsweredOnce, EngineRuns.AnsweredOnce, r);
    forall p | p != EngineRuns.AnsweredOnce ensures EngineRuns.Held(s', p)[r] == 0 {
      EngineRuns.HeldOnce(s', EngineRuns.AnsweredOnce, p, r);
    }
  }
}
