/** Administrator operations over whole runs. */
module AdminRuns {
  import opened Wrappers
  import opened Sets
  import opened Admin

  datatype Step =
    | Tick(seconds: nat)
    | SetAdmins(admins: set<int>)
    | Submit(id: Id, actor: int, session: string, input: Input)
    | Take(id: Id, worker: Id)
    | Offer(worker: Id, plan: Plan, token: string)
    | Confirm(id: Id, actor: int, session: string, token: string)
    | Expire
    | Begin(worker: Id)
    | Complete(worker: Id)
    | Fail(worker: Id)
    | Vanish(worker: Id)
    | Restart

  /** UUIDs are new and workers take operations that exist. */
  predicate Enabled(s: Portal, step: Step) {
    match step
    case Submit(id, _, _, _) => id !in s.ops
    case Take(id, worker) => id in s.ops && id in s.trails && worker !in s.running
    case _ => true
  }

  function Next(s: Portal, step: Step): Portal
    requires Enabled(s, step)
  {
    match step
    case Tick(n) => s.(now := s.now + n)
    case SetAdmins(admins) => s.(admins := admins)
    case Submit(id, actor, session, input) => Admin.Submit(s, id, actor, session, input)
    case Take(id, worker) => Admin.Take(s, id, worker)
    case Offer(worker, plan, token) => Admin.Offer(s, worker, plan, token)
    case Confirm(id, actor, session, token) => Admin.Confirm(s, id, actor, session, token)
    case Expire => Admin.Expire(s)
    case Begin(worker) => Admin.Begin(s, worker)
    case Complete(worker) => Admin.Complete(s, worker)
    case Fail(worker) => Admin.Fail(s, worker)
    case Vanish(worker) => Admin.Vanish(s, worker)
    case Restart => Admin.Restart(s)
  }

  ghost predicate Legal(s: Portal, steps: seq<Step>)
    decreases |steps|
  {
    steps == [] || (Enabled(s, steps[0]) && Legal(Next(s, steps[0]), steps[1..]))
  }

  ghost function Run(s: Portal, steps: seq<Step>): Portal
    requires Legal(s, steps)
    decreases |steps|
  {
    if steps == [] then s else Run(Next(s, steps[0]), steps[1..])
  }

  // ---- the invariant ----

  ghost predicate OfferedOnce(o: Operation, t: Trail) {
    && |t.validated| == 1 && o.plan == Some(t.validated[0].plan) && o.confirmation == Some(t.validated[0].token)
    && o.validatedUntil == t.validated[0].until
  }

  /** One confirmation, by the submitting actor and session, of the offered plan, in time. */
  ghost predicate ConfirmedOnce(o: Operation, t: Trail) {
    && OfferedOnce(o, t) && |t.confirmed| == 1
    && t.confirmed[0].actor == o.actor && t.confirmed[0].session == o.session
    && t.confirmed[0].token == t.validated[0].token && t.confirmed[0].at < t.validated[0].until
  }

  ghost predicate AppliedOnce(o: Operation, t: Trail) {
    || t.applied == []
    || (|t.validated| == 1 && t.applied == [t.validated[0].plan] && t.validated[0].plan.input == o.input)
  }

  /** How far the history of an operation can have gone. */
  ghost predicate Fresh(o: Operation, t: Trail) {
    t == NO_TRAIL
  }

  ghost predicate Offered(o: Operation, t: Trail) {
    OfferedOnce(o, t) && t.confirmed == [] && t.entered == 0 && t.applied == []
  }

  ghost predicate Accepted(o: Operation, t: Trail) {
    ConfirmedOnce(o, t) && t.entered == 0 && t.applied == []
  }

  ghost predicate Entered(o: Operation, t: Trail) {
    ConfirmedOnce(o, t) && t.entered == 1 && AppliedOnce(o, t)
  }

  ghost predicate Consistent(o: Operation, t: Trail) {
    match o.state
    case PendingValidation => Fresh(o, t)
    case Validating => Fresh(o, t)
    case Ready => Offered(o, t)
    case Expired => Offered(o, t)
    case Queued => Accepted(o, t)
    case Applying => Entered(o, t)
    case Succeeded => Entered(o, t)
    case Uncertain => Entered(o, t)
    case Failed => Fresh(o, t) || Offered(o, t) || Accepted(o, t) || Entered(o, t)
  }

  /** An applying execution belongs to the one entry of its operation and carries its plan. */
  ghost predicate Owns(s: Portal, w: Id)
    requires w in s.running
  {
    var e := s.running[w];
    && e.op in s.ops && e.op in s.trails && Entered(s.ops[e.op], s.trails[e.op])
    && e.plan == s.ops[e.op].plan && e.input == s.ops[e.op].input && e.actor == s.ops[e.op].actor
    && (!e.started ==> s.trails[e.op].applied == [])
  }

  predicate SameApplication(e: Execution, f: Execution) {
    e.phase == Application && f.phase == Application && e.op == f.op
  }

  ghost predicate Inv(s: Portal) {
    && s.trails.Keys == s.ops.Keys
    && (forall i :: i in s.ops ==> Consistent(s.ops[i], s.trails[i]))
    && (forall w :: w in s.running ==> s.running[w].op in s.ops)
    && (forall w :: w in s.running && s.running[w].phase == Application ==> Owns(s, w))
    && (forall v, w :: v in s.running && w in s.running && SameApplication(s.running[v], s.running[w]) ==> v == w)
  }

  // ---- every step keeps it ----

  lemma SubmitKeeps(s: Portal, id: Id, actor: int, session: string, input: Input)
    requires Inv(s) && id !in s.ops
    ensures Inv(Admin.Submit(s, id, actor, session, input))
  {
    hide Allowed;
  }

  lemma TakeValidation(s: Portal, id: Id, worker: Id)
    requires Inv(s) && id in s.ops && worker !in s.running && s.ops[id].state == PendingValidation
    ensures Inv(Admin.Take(s, id, worker))
  {
  }

  lemma NotEntered(s: Portal, id: Id, w: Id)
    requires Inv(s) && id in s.ops && s.ops[id].state == Queued && w in s.running && s.running[w].phase == Application
    ensures s.running[w].op != id
  {
  }

  lemma TakeApplication(s: Portal, id: Id, worker: Id)
    requires Inv(s) && id in s.ops && worker !in s.running && s.ops[id].state == Queued
    ensures Inv(Admin.Take(s, id, worker))
  {
    hide ConfirmedOnce;
    var s' := Admin.Take(s, id, worker);
    forall w | w in s.running && s.running[w].phase == Application
      ensures s.running[w].op != id
    {
      NotEntered(s, id, w);
    }
    QueuedPlan(s.ops[id], s.trails[id], s'.ops[id], s'.trails[id]);
    assert Owns(s', worker);
  }

  lemma QueuedPlan(o: Operation, t: Trail, o': Operation, t': Trail)
    requires Accepted(o, t) && o' == o.(state := Applying) && t' == t.(entered := 1)
    ensures Entered(o', t') && t'.applied == []
  {
  }

  lemma TakeKeeps(s: Portal, id: Id, worker: Id)
    requires Inv(s) && id in s.ops && worker !in s.running
    ensures Inv(Admin.Take(s, id, worker))
  {
    hide Inv;
    if s.ops[id].state == PendingValidation {
      TakeValidation(s, id, worker);
    } else if s.ops[id].state == Queued {
      TakeApplication(s, id, worker);
    }
  }

  lemma OfferKeeps(s: Portal, worker: Id, plan: Plan, token: string)
    requires Inv(s)
    ensures Inv(Admin.Offer(s, worker, plan, token))
  {
  }

  lemma ConfirmKeeps(s: Portal, id: Id, actor: int, session: string, token: string)
    requires Inv(s)
    ensures Inv(Admin.Confirm(s, id, actor, session, token))
  {
  }

  lemma BeginKeeps(s: Portal, worker: Id)
    requires Inv(s)
    ensures Inv(Admin.Begin(s, worker))
  {
  }

  lemma CompleteKeeps(s: Portal, worker: Id)
    requires Inv(s)
    ensures Inv(Admin.Complete(s, worker))
  {
  }

  lemma FailKeeps(s: Portal, worker: Id)
    requires Inv(s)
    ensures Inv(Admin.Fail(s, worker))
  {
  }

  /** Only states moved, and each stayed consistent with its history. */
  ghost predicate StatesMoved(s: Portal, s': Portal) {
    && s'.trails == s.trails && s'.running == s.running && s'.ops.Keys == s.ops.Keys && s.trails.Keys == s.ops.Keys
    && (forall i :: i in s.ops ==>
          s'.ops[i] == s.ops[i].(state := s'.ops[i].state) && Consistent(s'.ops[i], s.trails[i]))
  }

  lemma StatesKeep(s: Portal, s': Portal)
    requires Inv(s) && StatesMoved(s, s')
    ensures Inv(s')
  {
    hide Consistent;
    forall w | w in s'.running && s'.running[w].phase == Application
      ensures Owns(s', w)
    {
      assert Owns(s, w);
    }
  }

  lemma ExpireKeeps(s: Portal)
    requires Inv(s)
    ensures Inv(Admin.Expire(s))
  {
    StatesKeep(s, Admin.Expire(s));
  }

  lemma RestartKeeps(s: Portal)
    requires Inv(s)
    ensures Inv(Admin.Restart(s))
  {
    StatesKeep(s, Admin.Restart(s));
  }

  lemma StepKeeps(s: Portal, step: Step)
    requires Inv(s) && Enabled(s, step)
    ensures Inv(Next(s, step))
  {
    match step
    case Submit(id, actor, session, input) => SubmitKeeps(s, id, actor, session, input);
    case Take(id, worker) => TakeKeeps(s, id, worker);
    case Offer(worker, plan, token) => OfferKeeps(s, worker, plan, token);
    case Confirm(id, actor, session, token) => ConfirmKeeps(s, id, actor, session, token);
    case Begin(worker) => BeginKeeps(s, worker);
    case Complete(worker) => CompleteKeeps(s, worker);
    case Fail(worker) => FailKeeps(s, worker);
    case Expire => ExpireKeeps(s);
    case Restart => RestartKeeps(s);
    case _ =>
  }

  // ---- over runs ----

  lemma {:induction false} InvAlways(s: Portal, steps: seq<Step>)
    requires Inv(s) && Legal(s, steps)
    ensures Inv(Run(s, steps))
    decreases |steps|
  {
    hide Inv, Enabled, Next;
    if steps != [] {
      StepKeeps(s, steps[0]);
      InvAlways(Next(s, steps[0]), steps[1..]);
    }
  }

  /** An operation is applied at most once, and only the plan that was validated for its own input
      and confirmed once, in time, by the actor and session that submitted it. */
  lemma AppliedAtMostOnce(steps: seq<Step>, id: Id)
    requires Legal(EMPTY, steps) && id in Run(EMPTY, steps).ops
    ensures var s := Run(EMPTY, steps);
            id in s.trails && s.trails[id].entered <= 1 && |s.trails[id].applied| <= s.trails[id].entered
    ensures var s := Run(EMPTY, steps); var o, t := s.ops[id], s.trails[id];
            t.entered == 1 ==>
              && |t.validated| == 1 && |t.confirmed| == 1
              && t.confirmed[0].actor == o.actor && t.confirmed[0].session == o.session
              && t.confirmed[0].token == t.validated[0].token && t.confirmed[0].at < t.validated[0].until
              && (t.applied == [] || (t.applied == [t.validated[0].plan] && t.validated[0].plan.input == o.input))
  {
    hide Legal, Run;
    InvAlways(EMPTY, steps);
    var s := Run(EMPTY, steps);
    assert Consistent(s.ops[id], s.trails[id]);
  }

  /** The stages of an operation; a step never goes back. */
  function Rank(state: State): nat {
    match state
    case PendingValidation => 0
    case Validating => 0
    case Ready => 1
    case Queued => 2
    case Applying => 3
    case Succeeded => 4
    case Uncertain => 4
    case Expired => 4
    case Failed => 5
  }

  ghost predicate Forward(s: Portal, s': Portal, id: Id) {
    id in s.ops && id in s'.ops && Rank(s.ops[id].state) <= Rank(s'.ops[id].state)
    && s'.ops[id].actor == s.ops[id].actor
    && s'.ops[id].input == s.ops[id].input && s'.ops[id].session == s.ops[id].session
    && s'.ops[id].createdAt == s.ops[id].createdAt
  }

  lemma StepForward(s: Portal, step: Step, id: Id)
    requires Enabled(s, step) && id in s.ops
    ensures Forward(s, Next(s, step), id)
  {
    hide Allowed;
  }

  /** Stages never run backwards: in particular an uncertain, expired or failed operation is never
      queued or applied again. */
  lemma {:induction false} NeverBack(s: Portal, steps: seq<Step>, id: Id)
    requires Legal(s, steps) && id in s.ops
    ensures Forward(s, Run(s, steps), id)
    ensures s.ops[id].state in {Succeeded, Uncertain, Expired, Failed} ==>
              Run(s, steps).ops[id].state !in {PendingValidation, Validating, Ready, Queued, Applying}
    decreases |steps|
  {
    hide Enabled, Next;
    if steps != [] {
      StepForward(s, steps[0], id);
      NeverBack(Next(s, steps[0]), steps[1..], id);
    }
  }

  predicate Settled(state: State) {
    state in {Succeeded, Uncertain, Expired, Failed}
  }

  /** A settled operation changes exactly when an execution of it reports a failure: even success
      can be overwritten, because the failure update does not look at the state. */
  lemma SettledUnlessFailed(s: Portal, step: Step, id: Id)
    requires Inv(s) && Enabled(s, step) && id in s.ops && Settled(s.ops[id].state)
    ensures id in Next(s, step).ops
    ensures Next(s, step).ops[id] != s.ops[id] <==>
            step.Fail? && step.worker in s.running && s.running[step.worker].op == id && s.ops[id].state != Failed
    ensures Next(s, step).ops[id] != s.ops[id] ==> Next(s, step).ops[id].state == Failed
  {
    hide Allowed;
  }

  // ---- what moves an operation ----

  /** The execution of operation `id` in this phase that the worker remembers. */
  predicate Executes(s: Portal, worker: Id, id: Id, phase: Phase) {
    worker in s.running && s.running[worker].op == id && s.running[worker].phase == phase
  }

  /** The next state of operation `id`, and why. */
  function Moved(s: Portal, step: Step, id: Id): State
    requires id in s.ops
  {
    var o := s.ops[id];
    match step
    case Take(i, _) =>
      if i == id && o.state == PendingValidation then Validating
      else if i == id && o.state == Queued then Applying else o.state
    case Offer(worker, _, _) =>
      if Executes(s, worker, id, Validation) && o.state == Validating then Ready else o.state
    case Confirm(i, actor, session, token) =>
      if i == id && o.state == Ready && actor == o.actor && session == o.session && o.confirmation == Some(token)
         && s.now < o.validatedUntil && actor in s.admins then Queued else o.state
    case Expire => if o.state == Ready && o.validatedUntil <= s.now then Expired else o.state
    case Complete(worker) =>
      if Executes(s, worker, id, Application) && s.running[worker].started && o.state == Applying then Succeeded
      else o.state
    case Fail(worker) => if worker in s.running && s.running[worker].op == id then Failed else o.state
    case Restart =>
      if o.state == Validating then PendingValidation else if o.state == Applying then Uncertain else o.state
    case _ => o.state
  }

  /** Every step moves every operation exactly so; only an offer changes anything but the state, and
      what it offers is open to confirmation for fifteen minutes. */
  lemma MovesExactly(s: Portal, step: Step, id: Id)
    requires Inv(s) && Enabled(s, step) && id in s.ops
    ensures id in Next(s, step).ops
    ensures var o, o' := s.ops[id], Next(s, step).ops[id];
            && o'.state == Moved(s, step, id)
            && o' == if o.state == Validating && o'.state == Ready && step.Offer? then
                       o.(state := Ready, plan := Some(step.plan), confirmation := Some(step.token),
                          validatedUntil := s.now + 900)
                     else o.(state := o'.state)
  {
    hide Allowed;
  }

  /** A plan is applied only by the execution that read it, of an actor that is an administrator at
      that moment, and only for the input it was made for. */
  lemma AppliedIff(s: Portal, step: Step, id: Id)
    requires Inv(s) && Enabled(s, step) && id in s.ops && id in s.trails
    ensures id in Next(s, step).trails
    ensures var e, e' := s.trails[id].applied, Next(s, step).trails[id].applied;
            if && step.Begin? && Executes(s, step.worker, id, Application) && !s.running[step.worker].started
               && s.running[step.worker].actor in s.admins && s.running[step.worker].plan.Some?
               && s.running[step.worker].plan.value.input == s.running[step.worker].input
            then e' == e + [s.running[step.worker].plan.value] else e' == e
  {
    hide Allowed;
  }

  /** A worker remembers the row it takes as it stands; only beginning changes an execution. */
  lemma Remembers(s: Portal, step: Step, worker: Id)
    requires Inv(s) && Enabled(s, step) && worker in Next(s, step).running
    ensures if worker in s.running then
              Next(s, step).running[worker] ==
              s.running[worker].(started := Next(s, step).running[worker].started)
            else
              && step.Take? && step.worker == worker && step.id in s.ops
              && (var o := s.ops[step.id];
                  Next(s, step).running[worker] ==
                  Execution(step.id, o.actor, o.input,
                            if o.state == Queued then Application else Validation, o.plan, false))
  {
    hide Allowed;
  }

  /** An operation is admitted if and only if its actor is an administrator with fewer than sixty
      submissions within the last hour and fewer than four operations under way. */
  lemma AdmittedIff(s: Portal, id: Id, actor: int, session: string, input: Input)
    requires id !in s.ops
    ensures var s' := Next(s, Step.Submit(id, actor, session, input));
            && (id in s'.ops <==>
                && actor in s.admins
                && |set i | i in s.ops && s.ops[i].actor == actor && s.ops[i].createdAt > s.now - 3600| < 60
                && |set i | i in s.ops && s.ops[i].actor == actor
                            && s.ops[i].state in {PendingValidation, Validating, Queued, Applying}| < 4)
            && (id in s'.ops ==>
                  && s'.ops == s.ops[id := Operation(actor, session, input, PendingValidation, None, None, 0, s.now)]
                  && s'.trails == s.trails[id := NO_TRAIL] && s'.running == s.running)
            && (id !in s'.ops ==> s' == s)
  {
    assert Since(s, actor, s.now - HOUR) ==
           set i | i in s.ops && s.ops[i].actor == actor && s.ops[i].createdAt > s.now - 3600;
    assert ActiveOf(s, actor) ==
           set i | i in s.ops && s.ops[i].actor == actor
                   && s.ops[i].state in {PendingValidation, Validating, Queued, Applying};
  }

  lemma {:induction false} OneMoreStep(s: Portal, steps: seq<Step>, step: Step)
    requires Legal(s, steps) && Enabled(Run(s, steps), step)
    ensures Legal(s, steps + [step]) && Run(s, steps + [step]) == Next(Run(s, steps), step)
    decreases |steps|
  {
    hide Enabled, Next;
    if steps == [] {
      assert [] + [step] == [step] && [step][1..] == [];
    } else {
      assert (steps + [step])[1..] == steps[1..] + [step];
      OneMoreStep(Next(s, steps[0]), steps[1..], step);
    }
  }

  // Success overwritten: a validation outlives its dispatcher, the restarted one validates again, the
  // plan is confirmed and applied, and then the old execution reports its failure.

  /** One operation of the only administrator, at time 0. */
  function Lone(o: Operation, running: map<Id, Execution>, t: Trail): Portal {
    Portal(0, {o.actor}, map[0 := o], running, map[0 := t])
  }

  function Asked(actor: int, session: string, input: Input): Operation {
    Operation(actor, session, input, PendingValidation, None, None, 0, 0)
  }

  function Checking(o: Operation): Execution {
    Execution(0, o.actor, o.input, Validation, o.plan, false)
  }

  function Answered(o: Operation, token: string): Operation {
    o.(plan := Some(Plan(o.input, "")), confirmation := Some(token), validatedUntil := VALIDITY)
  }

  function AnsweredTrail(o: Operation, token: string): Trail {
    Trail([Validated(Plan(o.input, ""), token, VALIDITY)], [Confirmed(o.actor, o.session, token, 0)], 0, [])
  }

  lemma Asking(actor: int, session: string, input: Input)
    ensures var s := Next(EMPTY, Step.SetAdmins({actor}));
            && Enabled(s, Step.Submit(0, actor, session, input))
            && Next(s, Step.Submit(0, actor, session, input)) == Lone(Asked(actor, session, input), map[], NO_TRAIL)
  {
    var s := Next(EMPTY, Step.SetAdmins({actor}));
    assert Since(s, actor, s.now - HOUR) == {} && ActiveOf(s, actor) == {};
  }

  lemma CheckedTwice(o: Operation)
    requires o.state == PendingValidation
    ensures var s := Lone(o, map[], NO_TRAIL);
            && Enabled(s, Step.Take(0, 1))
            && Next(s, Step.Take(0, 1)) == Lone(o.(state := Validating), map[1 := Checking(o)], NO_TRAIL)
    ensures var s := Lone(o.(state := Validating), map[1 := Checking(o)], NO_TRAIL);
            Next(s, Step.Restart) == Lone(o, map[1 := Checking(o)], NO_TRAIL)
    ensures var s := Lone(o, map[1 := Checking(o)], NO_TRAIL);
            && Enabled(s, Step.Take(0, 2))
            && Next(s, Step.Take(0, 2)) ==
               Lone(o.(state := Validating), map[1 := Checking(o), 2 := Checking(o)], NO_TRAIL)
  {
  }

  lemma Answering(o: Operation, token: string)
    requires o.state == PendingValidation
    ensures var running := map[1 := Checking(o), 2 := Checking(o)];
            var s := Lone(o.(state := Validating), running, NO_TRAIL);
            var s1 := Next(s, Step.Offer(2, Plan(o.input, ""), token));
            Next(s1, Step.Confirm(0, o.actor, o.session, token)) ==
            Lone(Answered(o, token).(state := Queued), running, AnsweredTrail(o, token))
  {
    var running := map[1 := Checking(o), 2 := Checking(o)];
    var s := Lone(o.(state := Validating), running, NO_TRAIL);
    var s1 := Next(s, Step.Offer(2, Plan(o.input, ""), token));
    assert [] + [Validated(Plan(o.input, ""), token, VALIDITY)] == [Validated(Plan(o.input, ""), token, VALIDITY)];
    assert s1 == Lone(Answered(o, token).(state := Ready), running, AnsweredTrail(o, token).(confirmed := []));
    assert [] + [Confirmed(o.actor, o.session, token, 0)] == [Confirmed(o.actor, o.session, token, 0)];
  }

  lemma Applied(o: Operation, running: map<Id, Execution>, t: Trail)
    requires o.state == Queued && o.plan == Some(Plan(o.input, "")) && 3 !in running
    ensures var s := Lone(o, running, t);
            && Enabled(s, Step.Take(0, 3))
            && (var s1 := Next(Next(Next(s, Step.Take(0, 3)), Step.Begin(3)), Step.Complete(3));
                && s1.ops == map[0 := o.(state := Succeeded)]
                && forall w :: w in running ==> w in s1.running && s1.running[w] == running[w])
  {
  }

  lemma FailedLate(s: Portal, o: Operation)
    requires s.ops == map[0 := o] && 1 in s.running && s.running[1].op == 0
    ensures Next(s, Step.Fail(1)).ops == map[0 := o.(state := Failed)]
  {
  }

  /** The success of an applied operation can be overwritten by a failure. */
  lemma SuccessOverwritten(actor: int, session: string, input: Input, token: string) returns (steps: seq<Step>)
    ensures Legal(EMPTY, steps) && 0 in Run(EMPTY, steps).ops && Run(EMPTY, steps).ops[0].state == Succeeded
    ensures Legal(EMPTY, steps + [Step.Fail(1)])
    ensures var s := Run(EMPTY, steps + [Step.Fail(1)]); 0 in s.ops && s.ops[0].state == Failed
  {
    hide Enabled, Next, Legal, Run, Lone;
    var o := Asked(actor, session, input);
    steps := Start();
    steps := Then(steps, Step.SetAdmins({actor}));
    Asking(actor, session, input);
    steps := Then(steps, Step.Submit(0, actor, session, input));
    CheckedTwice(o);
    steps := Then(steps, Step.Take(0, 1));
    steps := Then(steps, Step.Restart);
    steps := Then(steps, Step.Take(0, 2));
    Answering(o, token);
    steps := Then(steps, Step.Offer(2, Plan(input, ""), token));
    steps := Then(steps, Step.Confirm(0, actor, session, token));
    var q := Answered(o, token).(state := Queued);
    Applied(q, map[1 := Checking(o), 2 := Checking(o)], AnsweredTrail(o, token));
    steps := Then(steps, Step.Take(0, 3));
    steps := Then(steps, Step.Begin(3));
    steps := Then(steps, Step.Complete(3));
    FailedLate(Run(EMPTY, steps), q.(state := Succeeded));
    var _ := Then(steps, Step.Fail(1));
  }

  lemma Start() returns (steps: seq<Step>)
    ensures steps == [] && Legal(EMPTY, steps) && Run(EMPTY, steps) == EMPTY
  {
    steps := [];
  }

  lemma Then(steps: seq<Step>, step: Step) returns (longer: seq<Step>)
    requires Legal(EMPTY, steps) && Enabled(Run(EMPTY, steps), step)
    ensures longer == steps + [step] && Legal(EMPTY, longer) && Run(EMPTY, longer) == Next(Run(EMPTY, steps), step)
  {
    longer := steps + [step];
    OneMoreStep(EMPTY, steps, step);
  }

  /** An application that a restart finds interrupted is uncertain from then on, or failed. */
  lemma InterruptedIsUncertain(s: Portal, steps: seq<Step>, id: Id)
    requires Inv(s) && Legal(s, [Step.Restart] + steps) && id in s.ops && s.ops[id].state == Applying
    ensures var s' := Run(s, [Step.Restart] + steps); id in s'.ops && s'.ops[id].state in {Uncertain, Failed}
  {
    var s1 := Admin.Restart(s);
    RestartKeeps(s);
    assert ([Step.Restart] + steps)[1..] == steps;
    Lasting(s1, steps, id);
  }

  lemma {:induction false} Lasting(s: Portal, steps: seq<Step>, id: Id)
    requires Inv(s) && Legal(s, steps) && id in s.ops && s.ops[id].state in {Uncertain, Failed}
    ensures id in Run(s, steps).ops && Run(s, steps).ops[id].state in {Uncertain, Failed}
    decreases |steps|
  {
    hide Enabled, Next, Inv;
    if steps != [] {
      StepKeeps(s, steps[0]);
      SettledUnlessFailed(s, steps[0], id);
      StepForward(s, steps[0], id);
      Lasting(Next(s, steps[0]), steps[1..], id);
    }
  }

  // ---- the hourly limit ----

  function Window(s: Portal, actor: int, t: int): set<Id> {
    set i | i in s.ops && s.ops[i].actor == actor && t < s.ops[i].createdAt <= t + HOUR
  }

  ghost predicate RateKept(s: Portal) {
    forall actor, t :: |Window(s, actor, t)| <= MAX_PER_HOUR
  }

  lemma SubmitRate(s: Portal, id: Id, actor: int, session: string, input: Input, a: int, t: int)
    requires RateKept(s) && id !in s.ops
    ensures |Window(Admin.Submit(s, id, actor, session, input), a, t)| <= MAX_PER_HOUR
  {
    var s' := Admin.Submit(s, id, actor, session, input);
    assert |Window(s, a, t)| <= MAX_PER_HOUR;
    if id in Window(s', a, t) {
      assert Window(s', a, t) == Window(s, a, t) + {id};
      SubsetSize(Window(s, a, t), Since(s, a, s.now - HOUR));
    } else {
      assert Window(s', a, t) == Window(s, a, t);
    }
  }

  lemma SameWindows(s: Portal, s': Portal)
    requires RateKept(s) && s'.ops.Keys == s.ops.Keys
    requires forall i :: i in s.ops ==> s'.ops[i].actor == s.ops[i].actor && s'.ops[i].createdAt == s.ops[i].createdAt
    ensures RateKept(s')
  {
    forall actor, t
      ensures |Window(s', actor, t)| <= MAX_PER_HOUR
    {
      assert Window(s', actor, t) == Window(s, actor, t);
    }
  }

  lemma OnlySubmitAdds(s: Portal, step: Step)
    requires Enabled(s, step) && !step.Submit?
    ensures Next(s, step).ops.Keys == s.ops.Keys
  {
  }

  lemma StepRate(s: Portal, step: Step)
    requires RateKept(s) && Enabled(s, step)
    ensures RateKept(Next(s, step))
  {
    hide RateKept;
    var s' := Next(s, step);
    if step.Submit? {
      SubmitKeepsRate(s, step.id, step.actor, step.session, step.input);
    } else {
      OnlySubmitAdds(s, step);
      forall i | i in s.ops
        ensures s'.ops[i].actor == s.ops[i].actor && s'.ops[i].createdAt == s.ops[i].createdAt
      {
        StepForward(s, step, i);
      }
      SameWindows(s, s');
    }
  }

  lemma SubmitKeepsRate(s: Portal, id: Id, actor: int, session: string, input: Input)
    requires RateKept(s) && id !in s.ops
    ensures RateKept(Admin.Submit(s, id, actor, session, input))
  {
    hide Admin.Submit;
    forall a, t
      ensures |Window(Admin.Submit(s, id, actor, session, input), a, t)| <= MAX_PER_HOUR
    {
      SubmitRate(s, id, actor, session, input, a, t);
    }
  }

  lemma {:induction false} RateAlways(s: Portal, steps: seq<Step>)
    requires RateKept(s) && Legal(s, steps)
    ensures RateKept(Run(s, steps))
    decreases |steps|
  {
    hide Enabled, Next, RateKept;
    if steps != [] {
      StepRate(s, steps[0]);
      RateAlways(Next(s, steps[0]), steps[1..]);
    }
  }

  /** In no run does an actor have more than sixty submissions within one hour, wherever the hour
      begins. */
  lemma SixtyPerHour(steps: seq<Step>, actor: int, t: int)
    requires Legal(EMPTY, steps)
    ensures |Window(Run(EMPTY, steps), actor, t)| <= MAX_PER_HOUR
  {
    hide Legal, Run;
    assert forall a, u :: Window(EMPTY, a, u) == {};
    RateAlways(EMPTY, steps);
  }
}
