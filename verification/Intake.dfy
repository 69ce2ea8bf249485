/** Which receipts are kept, and which become submissions. */
module Intake {
  import opened Wrappers
  import opened Database
  import opened Queue
  import opened Submissions
  import opened Lifecycle
  import opened Invariant
  import opened Frames

  /** A receipt for a known repository with a full lower-case commit that is no repeated delivery. */
  ghost predicate Kept(s: Db, p: Id, sha: string, source: EventSource) {
    && p in s.repos && |sha| == 40
    && (forall i :: 0 <= i < 40 ==> '0' <= sha[i] <= '9' || 'a' <= sha[i] <= 'f')
    && (source.Webhook? ==>
          forall e :: e in s.events && s.events[e].repo == p ==> s.events[e].source != source)
  }

  /** It arrived between opening and the deadline in force, both included, while the repository was
      open, and not by reconciliation. */
  predicate Timely(s: Db, p: Id, received: int, source: EventSource)
    requires p in s.repos
  {
    var r := s.repos[p];
    && r.revision.assignment.opensAt <= received
    && received <= (if r.extension.Some? then r.extension.value else r.revision.assignment.deadline)
    && !r.closed && (source.Webhook? || source.Registration?)
  }

  lemma Received(s: Db, p: Id, sha: string, received: int, source: EventSource, event: Id, sub: Id)
    requires p in s.repos && event !in s.events && sub !in s.subs
    ensures var s' := Receive(s, p, sha, received, source, event, sub);
            && s'.events == s.events[event := Event(p, sha, received, source, Timely(s, p, received, source))]
            && s'.subs == (if Timely(s, p, received, source)
                              && forall x :: IsLatest(s.subs, p, x) ==> s.subs[x].sha != sha
                           then s.subs[sub := Submission(p, event, sha, received, None)] else s.subs)
  {
    hide Latest;
    if x :| IsLatest(s.subs, p, x) {
      LatestIs(s.subs, p, x);
    }
  }

  /** Every valid receipt is kept and says whether it was timely; it becomes a submission if and
      only if it was and the newest submission is not of the same commit. Nothing else changes
      either table. */
  lemma TakenIff(s: Db, p: Id, sha: string, received: int, source: EventSource, event: Id, sub: Id, picks: set<Id>)
    requires Inv(s) && Enabled(s, Op.Record(p, sha, received, source, event, sub, picks))
    ensures var s' := Apply(s, Op.Record(p, sha, received, source, event, sub, picks));
            && (Kept(s, p, sha, source) ==>
                  && s'.events == s.events[event := Event(p, sha, received, source, Timely(s, p, received, source))]
                  && s'.subs == (if Timely(s, p, received, source)
                                    && forall x :: IsLatest(s.subs, p, x) ==> s.subs[x].sha != sha
                                 then s.subs[sub := Submission(p, event, sha, received, None)] else s.subs))
            && (!Kept(s, p, sha, source) ==> s' == s)
  {
    hide Inv, Receive, ScheduleSnapshots, FillsSlots;
    FreshRows(s, event, sub);
    if Recordable(s, p, sha, source) {
      Received(s, p, sha, received, source, event, sub);
      ScheduleFrame(Receive(s, p, sha, received, source, event, sub), p, picks);
    }
  }

  lemma FreshRows(s: Db, event: Id, sub: Id)
    requires Inv(s) && Fresh(s, event) && Fresh(s, sub)
    ensures event !in s.events && sub !in s.subs
  {
    hide Fenced, Exclusive, RunsFollowTasks, Scores, Baselines, Tickets, Closure, PrivateRuns, Attempts, Receipts;
    hide OncePerEvent, Snapshots;
  }
}
