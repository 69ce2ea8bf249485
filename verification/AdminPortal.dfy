/** The operation table and its transactions, as the web role and the worker perform them. */
module AdminPortal {
  import opened Wrappers
  import opened Admin

  function Waiting(ops: map<Id, Operation>, locked: set<Id>): set<Id> {
    set i | i in ops && i !in locked && ops[i].state in {PendingValidation, Queued}
  }

  predicate Earlier(ops: map<Id, Operation>, i: Id, j: Id)
    requires i in ops && j in ops
  {
    ops[i].createdAt < ops[j].createdAt || (ops[i].createdAt == ops[j].createdAt && i < j)
  }

  ghost predicate FirstCome(ops: map<Id, Operation>, waiting: set<Id>, id: Id)
    requires waiting <= ops.Keys
  {
    id in waiting && forall i :: i in waiting && i != id ==> Earlier(ops, id, i)
  }

  class Table {
    var now: int
    var admins: set<int>
    var ops: map<Id, Operation>
    var running: map<Id, Execution>
    ghost var trails: map<Id, Trail>

    ghost function View(): Portal
      reads this
    {
      Portal(now, admins, ops, running, trails)
    }

    constructor ()
      ensures View() == EMPTY
    {
      now, admins, ops, running, trails := 0, {}, map[], map[], map[];
    }

    method Submit(id: Id, actor: int, session: string, input: Input) returns (ok: bool)
      requires id !in ops
      modifies this`ops, this`trails
      ensures View() == Admin.Submit(old(View()), id, actor, session, input)
      ensures ok <==> Allowed(old(View()), actor)
    {
      var recent := CountRecent(actor);
      var active := CountActive(actor);
      ok := actor in admins && recent < MAX_PER_HOUR && active < MAX_ACTIVE;
      if ok {
        ops := ops[id := Operation(actor, session, input, PendingValidation, None, None, 0, now)];
        trails := trails[id := NO_TRAIL];
      }
    }

    method CountRecent(actor: int) returns (n: nat)
      ensures n == |Since(View(), actor, now - HOUR)|
    {
      n := 0;
      var todo := ops.Keys;
      ghost var seen: set<Id> := {};
      while todo != {}
        invariant todo <= ops.Keys && n == |seen|
        invariant seen == set i | i in ops && i !in todo && ops[i].actor == actor && ops[i].createdAt > now - HOUR
        decreases |todo|
      {
        var i :| i in todo;
        if ops[i].actor == actor && ops[i].createdAt > now - HOUR {
          n, seen := n + 1, seen + {i};
        }
        todo := todo - {i};
      }
      assert seen == Since(View(), actor, now - HOUR);
    }

    method CountActive(actor: int) returns (n: nat)
      ensures n == |ActiveOf(View(), actor)|
    {
      n := 0;
      var todo := ops.Keys;
      ghost var busy: set<Id> := {};
      while todo != {}
        invariant todo <= ops.Keys && n == |busy|
        invariant busy == set i | i in ops && i !in todo && ops[i].actor == actor
                  && ops[i].state in {PendingValidation, Validating, Queued, Applying}
        decreases |todo|
      {
        var i :| i in todo;
        if ops[i].actor == actor && ops[i].state in {PendingValidation, Validating, Queued, Applying} {
          n, busy := n + 1, busy + {i};
        }
        todo := todo - {i};
      }
      assert busy == ActiveOf(View(), actor);
    }

    method Confirm(id: Id, actor: int, session: string, token: string) returns (changed: bool)
      requires trails.Keys == ops.Keys
      modifies this`ops, this`trails
      ensures View() == Admin.Confirm(old(View()), id, actor, session, token)
      ensures changed <==> Confirmable(old(View()), id, actor, session, token)
    {
      changed := id in ops && ops[id].actor == actor && ops[id].session == session && ops[id].state == Ready
                 && ops[id].validatedUntil > now && ops[id].confirmation == Some(token) && actor in admins;
      if changed {
        ops := ops[id := ops[id].(state := Queued)];
        trails := trails[id := trails[id].(confirmed := trails[id].confirmed
                                           + [Confirmed(actor, session, token, now)])];
      }
    }

    /** The first update of a starting worker. */
    method Restart()
      modifies this`ops
      ensures View() == Admin.Restart(old(View()))
    {
      var before := ops;
      var todo := ops.Keys;
      while todo != {}
        invariant todo <= before.Keys && ops.Keys == before.Keys
        invariant forall i :: i in before ==>
                    ops[i] == if i in todo then before[i] else before[i].(state := Recovered(before[i].state))
        decreases |todo|
      {
        var i :| i in todo;
        assert i in before.Keys;
        if before[i].state == Validating {
          ops := ops[i := ops[i].(state := PendingValidation)];
        } else if before[i].state == Applying {
          ops := ops[i := ops[i].(state := Uncertain)];
        }
        todo := todo - {i};
      }
      assert ops == Admin.Restart(old(View())).ops;
    }

    method Expire()
      modifies this`ops
      ensures View() == Admin.Expire(old(View()))
    {
      ops := map i | i in ops ::
          if ops[i].state == Ready && ops[i].validatedUntil <= now then ops[i].(state := Expired) else ops[i];
    }

    /** `ORDER BY created_at, id LIMIT 1` over the rows to work on that nobody has locked. */
    method Oldest(locked: set<Id>) returns (id: Option<Id>)
      ensures id.None? ==> Waiting(ops, locked) == {}
      ensures id.Some? ==> FirstCome(ops, Waiting(ops, locked), id.value)
    {
      var waiting := Waiting(ops, locked);
      if waiting == {} {
        return None;
      }
      var first :| first in waiting;
      var todo := waiting;
      while todo != {}
        invariant todo <= waiting && first in waiting
        invariant forall i :: i in waiting && i !in todo ==> i == first || Earlier(ops, first, i)
        decreases |todo|
      {
        var i :| i in todo;
        if Earlier(ops, i, first) {
          first := i;
        }
        todo := todo - {i};
      }
      return Some(first);
    }

    /** One round of the dispatcher: the oldest waiting row moves to its phase and is remembered. */
    method Take(worker: Id, locked: set<Id>) returns (taken: Option<Id>)
      requires trails.Keys == ops.Keys
      modifies this`ops, this`running, this`trails
      ensures taken.None? ==> Waiting(ops, locked) == {} && View() == old(View())
      ensures taken.Some? ==> FirstCome(old(ops), Waiting(old(ops), locked), taken.value)
      ensures taken.Some? ==> View() == Admin.Take(old(View()), taken.value, worker)
    {
      taken := Oldest(locked);
      if taken.Some? {
        var id := taken.value;
        var o := ops[id];
        var phase := if o.state == Queued then Application else Validation;
        ops := ops[id := o.(state := if phase == Application then Applying else Validating)];
        running := running[worker := Execution(id, o.actor, o.input, phase, o.plan, false)];
        if phase == Application {
          trails := trails[id := trails[id].(entered := trails[id].entered + 1)];
        }
      }
    }

    method Offer(worker: Id, plan: Plan, token: string)
      requires trails.Keys == ops.Keys
      modifies this`ops, this`trails
      ensures View() == Admin.Offer(old(View()), worker, plan, token)
    {
      if worker in running && running[worker].phase == Validation && running[worker].op in ops {
        var id := running[worker].op;
        if ops[id].state == Validating {
          ops := ops[id := ops[id].(state := Ready, plan := Some(plan), confirmation := Some(token),
                                    validatedUntil := now + VALIDITY)];
          trails := trails[id := trails[id].(validated := trails[id].validated
                                             + [Validated(plan, token, now + VALIDITY)])];
        }
      }
    }

    /** The tests before an application; the answer is whether it may go ahead. */
    method Begin(worker: Id) returns (go: bool)
      requires trails.Keys == ops.Keys && worker in running && running[worker].op in ops
      requires running[worker].phase == Application && !running[worker].started
      modifies this`running, this`trails
      ensures View() == Admin.Begin(old(View()), worker)
      ensures go <==> View() != old(View())
    {
      var e := running[worker];
      go := e.actor in admins && e.plan.Some? && e.plan.value.input == e.input;
      if go {
        running := running[worker := e.(started := true)];
        trails := trails[e.op := trails[e.op].(applied := trails[e.op].applied + [e.plan.value])];
        assert running[worker].started;
      }
    }

    method Complete(worker: Id)
      requires worker in running && running[worker].phase == Application && running[worker].started
      modifies this`ops
      ensures View() == Admin.Complete(old(View()), worker)
    {
      var id := running[worker].op;
      if id in ops && ops[id].state == Applying {
        ops := ops[id := ops[id].(state := Succeeded)];
      }
    }

    /** The failure update, which has no state guard. */
    method Fail(worker: Id)
      requires worker in running
      modifies this`ops, this`running
      ensures View() == Admin.Fail(old(View()), worker)
    {
      var id := running[worker].op;
      running := running - {worker};
      if id in ops {
        ops := ops[id := ops[id].(state := Failed)];
      }
    }
  }
}
