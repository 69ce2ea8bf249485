/** Administrator operations: validate, confirm, apply, across crashes and stale workers.

    A session and a confirmation token stand for their digests. `running` holds the executions in
    the memory of worker processes: a worker that lost its dispatcher lock can still be finishing
    one while its successor has started. `trails` is history: what happened to each operation. */
module Admin {
  import opened Wrappers

  type Id = nat
  type Input = string

  datatype Plan = Plan(input: Input, content: string)

  datatype State = PendingValidation | Validating | Ready | Queued | Applying | Succeeded | Failed | Uncertain | Expired

  datatype Operation = Operation(
    actor: int,
    session: string,
    input: Input,
    state: State,
    plan: Option<Plan>,
    confirmation: Option<string>,
    validatedUntil: int,
    createdAt: int)

  datatype Phase = Validation | Application

  datatype Execution = Execution(op: Id, actor: int, input: Input, phase: Phase, plan: Option<Plan>, started: bool)

  datatype Validated = Validated(plan: Plan, token: string, until: int)
  datatype Confirmed = Confirmed(actor: int, session: string, token: string, at: int)

  /** The validations, accepted confirmations, entries into `applying` and applications so far. */
  datatype Trail = Trail(validated: seq<Validated>, confirmed: seq<Confirmed>, entered: nat, applied: seq<Plan>)

  const NO_TRAIL := Trail([], [], 0, [])

  datatype Portal = Portal(now: int, admins: set<int>, ops: map<Id, Operation>, running: map<Id, Execution>,
                           trails: map<Id, Trail>)

  const EMPTY := Portal(0, {}, map[], map[], map[])

  const HOUR := 3600
  const MAX_PER_HOUR := 60
  const MAX_ACTIVE := 4
  const VALIDITY := 900

  function Since(s: Portal, actor: int, t: int): set<Id> {
    set i | i in s.ops && s.ops[i].actor == actor && s.ops[i].createdAt > t
  }

  function ActiveOf(s: Portal, actor: int): set<Id> {
    set i | i in s.ops && s.ops[i].actor == actor && s.ops[i].state in {PendingValidation, Validating, Queued, Applying}
  }

  predicate Allowed(s: Portal, actor: int) {
    actor in s.admins && |Since(s, actor, s.now - HOUR)| < MAX_PER_HOUR && |ActiveOf(s, actor)| < MAX_ACTIVE
  }

  function Submit(s: Portal, id: Id, actor: int, session: string, input: Input): Portal {
    if !Allowed(s, actor) then s
    else s.(ops := s.ops[id := Operation(actor, session, input, PendingValidation, None, None, 0, s.now)],
            trails := s.trails[id := NO_TRAIL])
  }

  function SetState(s: Portal, id: Id, state: State): Portal
    requires id in s.ops
  {
    s.(ops := s.ops[id := s.ops[id].(state := state)])
  }

  /** A worker takes an operation and remembers the row it read. */
  function Take(s: Portal, id: Id, worker: Id): Portal
    requires id in s.ops && id in s.trails
  {
    var o := s.ops[id];
    if o.state == PendingValidation then
      SetState(s, id, Validating).(
        running := s.running[worker := Execution(id, o.actor, o.input, Validation, o.plan, false)])
    else if o.state == Queued then
      SetState(s, id, Applying).(
        running := s.running[worker := Execution(id, o.actor, o.input, Application, o.plan, false)],
        trails := s.trails[id := s.trails[id].(entered := s.trails[id].entered + 1)])
    else s
  }

  /** A finished validation offers its plan for confirmation, if the row still waits for it. */
  function Offer(s: Portal, worker: Id, plan: Plan, token: string): Portal {
    if worker !in s.running || s.running[worker].phase != Validation || s.running[worker].op !in s.ops
       || s.running[worker].op !in s.trails then s
    else
      var id := s.running[worker].op;
      if s.ops[id].state != Validating then s
      else
        s.(ops := s.ops[id := s.ops[id].(state := Ready, plan := Some(plan), confirmation := Some(token),
                                         validatedUntil := s.now + VALIDITY)],
           trails := s.trails[id := s.trails[id].(validated := s.trails[id].validated
                                                  + [Validated(plan, token, s.now + VALIDITY)])])
  }

  /** `confirm_admin_operation` */
  predicate Confirmable(s: Portal, id: Id, actor: int, session: string, token: string) {
    && id in s.ops && id in s.trails && s.ops[id].actor == actor && s.ops[id].session == session
    && s.ops[id].state == Ready
    && s.ops[id].validatedUntil > s.now && s.ops[id].confirmation == Some(token) && actor in s.admins
  }

  function Confirm(s: Portal, id: Id, actor: int, session: string, token: string): Portal {
    if !Confirmable(s, id, actor, session, token) then s
    else
      SetState(s, id, Queued).(
        trails := s.trails[id := s.trails[id].(confirmed := s.trails[id].confirmed
                                               + [Confirmed(actor, session, token, s.now)])])
  }

  function Expire(s: Portal): Portal {
    s.(ops := map i | i in s.ops ::
         if s.ops[i].state == Ready && s.ops[i].validatedUntil <= s.now then s.ops[i].(state := Expired) else s.ops[i])
  }

  /** The worker starts to apply the plan it read, if it is allowed to and the plan fits the input. */
  function Begin(s: Portal, worker: Id): Portal {
    if worker !in s.running || s.running[worker].op !in s.trails then s
    else
      var e := s.running[worker];
      if e.phase == Application && !e.started && e.actor in s.admins && e.plan.Some?
         && e.plan.value.input == e.input then
        s.(running := s.running[worker := e.(started := true)],
           trails := s.trails[e.op := s.trails[e.op].(applied := s.trails[e.op].applied + [e.plan.value])])
      else s
  }

  function Complete(s: Portal, worker: Id): Portal {
    if worker in s.running && s.running[worker].phase == Application && s.running[worker].started
       && s.running[worker].op in s.ops && s.ops[s.running[worker].op].state == Applying
    then SetState(s, s.running[worker].op, Succeeded)
    else s
  }

  /** The failure update looks at nothing but the id. */
  function Fail(s: Portal, worker: Id): Portal {
    if worker !in s.running then s
    else
      var s1 := s.(running := s.running - {worker});
      if s.running[worker].op in s.ops then SetState(s1, s.running[worker].op, Failed) else s1
  }

  /** An execution ends in silence: it returned, or its process died. */
  function Vanish(s: Portal, worker: Id): Portal {
    s.(running := s.running - {worker})
  }

  /** What a starting worker finds interrupted is validated again or declared uncertain. */
  function Recovered(state: State): State {
    match state
    case Validating => PendingValidation
    case Applying => Uncertain
    case other => other
  }

  function Restart(s: Portal): Portal {
    s.(ops := map i | i in s.ops :: s.ops[i].(state := Recovered(s.ops[i].state)))
  }
}
