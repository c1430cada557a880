/**
 * What one run of checkMissedCheckIns decides, as a function of the query
 * snapshot of subjects, the alert ledger as committed before the run, and the
 * clock. The imperative run in module Registry is proved to compute exactly
 * this; the lemmas here are the properties of the decision: exactly one
 * alert per missed-check-in episode however often the sweep runs.
 */
module Sweep {
  import opened Wrappers
  import opened Records
  import Liveness
  import opened AlertKeys

  /** One document of the `users` snapshot: its id and its data. */
  datatype UserDoc = UserDoc(id: UserId, user: User)

  /** One queued e-mail: who is overdue, which squad address, by how much. */
  datatype Notice = Notice(userId: UserId, email: string, overdueMs: int)

  /** The per-subject outcome of one sweep. */
  datatype Decision = NoSquad | NoBaseline | OnTime | AlreadyAlerted | NewAlert(key: string, overdueMs: int)

  /**
   * server.js:419-449: skip a subject without squad, then one without a
   * check-in; otherwise alert when overdue beyond the grace window, unless the
   * ledger already holds this episode's key.
   */
  function Decide(doc: UserDoc, ledger: map<string, Alert>, now: int): (d: Decision)
    ensures d.NewAlert? <==>
      && |doc.user.squad| > 0
      && doc.user.lastCheckIn.Some?
      && Liveness.Evaluate(now, doc.user.lastCheckIn.value, doc.user.checkInFrequency).Overdue?
      && AlertKey(doc.id, doc.user.lastCheckIn.value) !in ledger
    ensures d.NewAlert? ==>
      && d.key == AlertKey(doc.id, doc.user.lastCheckIn.value)
      && d.overdueMs == Liveness.Evaluate(now, doc.user.lastCheckIn.value, doc.user.checkInFrequency).overdueMs
  {
    if |doc.user.squad| == 0 then NoSquad
    else if doc.user.lastCheckIn.None? then NoBaseline
    else
      var last := doc.user.lastCheckIn.value;
      var liveness := Liveness.Evaluate(now, last, doc.user.checkInFrequency);
      if liveness.OnTime? then OnTime
      else if AlertKey(doc.id, last) in ledger then AlreadyAlerted
      else NewAlert(AlertKey(doc.id, last), liveness.overdueMs)
  }

  /** The squad's addresses, in squad order. */
  function Emails(squad: seq<Member>): (es: seq<string>)
    ensures |es| == |squad| && forall i | 0 <= i < |squad| :: es[i] == squad[i].email
  {
    seq(|squad|, i requires 0 <= i < |squad| => squad[i].email)
  }

  /** One notice per squad member, in squad order. */
  function NoticesFor(doc: UserDoc, overdueMs: int): (ns: seq<Notice>)
    ensures |ns| == |doc.user.squad|
    ensures forall i | 0 <= i < |ns| :: ns[i] == Notice(doc.id, doc.user.squad[i].email, overdueMs)
  {
    seq(|doc.user.squad|, i requires 0 <= i < |doc.user.squad| => Notice(doc.id, doc.user.squad[i].email, overdueMs))
  }

  /** The ledger entry written for a new alert (server.js:471-480). */
  function AlertFor(doc: UserDoc, key: string, overdueMs: int): Alert
    requires doc.user.lastCheckIn.Some?
  {
    Alert(key, doc.id,
          if doc.user.displayName == "" then "User" else doc.user.displayName,
          doc.user.lastCheckIn.value,
          Emails(doc.user.squad),
          overdueMs,
          Liveness.EffectiveDays(doc.user.checkInFrequency))
  }

  /** The counters, the queued e-mails and the alert batch of a run. */
  datatype Tally = Tally(totalUsers: nat, usersWithSquad: nat, missedCount: nat, notices: seq<Notice>, batch: map<string, Alert>)

  function Step(t: Tally, doc: UserDoc, ledger: map<string, Alert>, now: int): Tally {
    match Decide(doc, ledger, now)
    case NoSquad => t.(totalUsers := t.totalUsers + 1)
    case NewAlert(key, overdueMs) =>
      Tally(t.totalUsers + 1, t.usersWithSquad + 1, t.missedCount + 1,
            t.notices + NoticesFor(doc, overdueMs),
            t.batch[key := AlertFor(doc, key, overdueMs)])
    case _ => t.(totalUsers := t.totalUsers + 1, usersWithSquad := t.usersWithSquad + 1)
  }

  /**
   * The whole run, subject by subject in snapshot order. Every subject is
   * counted; the missed ones are among those with a squad.
   */
  function Plan(docs: seq<UserDoc>, ledger: map<string, Alert>, now: int): (t: Tally)
    ensures t.totalUsers == |docs|
    ensures t.missedCount <= t.usersWithSquad <= t.totalUsers
    ensures |t.batch| <= t.missedCount
  {
    if docs == [] then Tally(0, 0, 0, [], map[])
    else Step(Plan(docs[..|docs| - 1], ledger, now), docs[|docs| - 1], ledger, now)
  }

  lemma PlanAppend(docs: seq<UserDoc>, doc: UserDoc, ledger: map<string, Alert>, now: int)
    ensures Plan(docs + [doc], ledger, now) == Step(Plan(docs, ledger, now), doc, ledger, now)
  {
    assert (docs + [doc])[..|docs|] == docs;
  }

  /** The run over one more document of the snapshot. */
  lemma PlanNext(docs: seq<UserDoc>, i: int, ledger: map<string, Alert>, now: int)
    requires 0 <= i < |docs|
    ensures Plan(docs[..i + 1], ledger, now) == Step(Plan(docs[..i], ledger, now), docs[i], ledger, now)
  {
    assert docs[..i + 1][..i] == docs[..i];
  }

  /**
   * Fan-out of one subject: a new alert appends exactly one notice per squad
   * member and one ledger entry listing exactly those addresses; any other
   * outcome (no squad, no check-in, on time, already alerted) adds neither.
   */
  lemma StepFansOut(docs: seq<UserDoc>, doc: UserDoc, ledger: map<string, Alert>, now: int)
    ensures var before := Plan(docs, ledger, now);
            var after := Plan(docs + [doc], ledger, now);
            var d := Decide(doc, ledger, now);
            if d.NewAlert? then
              && after.notices == before.notices + NoticesFor(doc, d.overdueMs)
              && |after.notices| == |before.notices| + |doc.user.squad|
              && d.key in after.batch
              && after.batch[d.key].notified == Emails(doc.user.squad)
              && after.batch[d.key].overdueMs == d.overdueMs
              && after.missedCount == before.missedCount + 1
            else
              && after.notices == before.notices
              && after.batch == before.batch
              && after.missedCount == before.missedCount
  {
    PlanAppend(docs, doc, ledger, now);
  }

  lemma StepBatchKeys(t: Tally, doc: UserDoc, ledger: map<string, Alert>, now: int)
    ensures var d := Decide(doc, ledger, now);
            Step(t, doc, ledger, now).batch.Keys == if d.NewAlert? then t.batch.Keys + {d.key} else t.batch.Keys
  {
  }

  /** Key `k` is the key of a new alert for some subject of the snapshot. */
  ghost predicate AlertedIn(docs: seq<UserDoc>, ledger: map<string, Alert>, now: int, k: string) {
    exists i | 0 <= i < |docs| :: Decide(docs[i], ledger, now).NewAlert? && Decide(docs[i], ledger, now).key == k
  }

  /**
   * The batch holds exactly the keys of the run's new alerts.
   */
  lemma PlanBatchKeys(docs: seq<UserDoc>, ledger: map<string, Alert>, now: int)
    ensures forall k :: k in Plan(docs, ledger, now).batch <==> AlertedIn(docs, ledger, now, k)
  {
    forall k ensures k in Plan(docs, ledger, now).batch <==> AlertedIn(docs, ledger, now, k) {
      PlanBatchKey(docs, ledger, now, k);
    }
  }

  lemma {:induction false} PlanBatchKey(docs: seq<UserDoc>, ledger: map<string, Alert>, now: int, k: string)
    ensures k in Plan(docs, ledger, now).batch <==> AlertedIn(docs, ledger, now, k)
  {
    if docs != [] {
      var init := docs[..|docs| - 1];
      var doc := docs[|docs| - 1];
      PlanBatchKey(init, ledger, now, k);
      StepBatchKeys(Plan(init, ledger, now), doc, ledger, now);
      var d := Decide(doc, ledger, now);
      assert Decide(docs[|docs| - 1], ledger, now) == d;
      if d.NewAlert? && d.key == k {
        assert AlertedIn(docs, ledger, now, k);
      } else {
        assert k in Plan(docs, ledger, now).batch <==> k in Plan(init, ledger, now).batch;
        if AlertedIn(init, ledger, now, k) {
          var i :| 0 <= i < |init| && Decide(init[i], ledger, now).NewAlert? && Decide(init[i], ledger, now).key == k;
          assert docs[i] == init[i];
        }
        if AlertedIn(docs, ledger, now, k) {
          var i :| 0 <= i < |docs| && Decide(docs[i], ledger, now).NewAlert? && Decide(docs[i], ledger, now).key == k;
          assert i != |docs| - 1;
          assert init[i] == docs[i];
        }
      }
    }
  }

  /**
   * Every entry of the batch is stored under its own key, which is the
   * episode key of the subject and check-in it records, and was not in the
   * ledger before the run.
   */
  lemma {:induction false} PlanBatchEntries(docs: seq<UserDoc>, ledger: map<string, Alert>, now: int)
    ensures forall k | k in Plan(docs, ledger, now).batch ::
      && Plan(docs, ledger, now).batch[k].alertKey == k
      && k == AlertKey(Plan(docs, ledger, now).batch[k].userId, Plan(docs, ledger, now).batch[k].lastCheckIn)
      && k !in ledger
  {
    if docs != [] {
      PlanBatchEntries(docs[..|docs| - 1], ledger, now);
    }
  }

  /** A run in which no subject is newly overdue queues nothing and writes nothing. */
  lemma {:induction false} QuietRun(docs: seq<UserDoc>, ledger: map<string, Alert>, now: int)
    requires forall i | 0 <= i < |docs| :: !Decide(docs[i], ledger, now).NewAlert?
    ensures Plan(docs, ledger, now).notices == []
    ensures Plan(docs, ledger, now).batch == map[]
    ensures Plan(docs, ledger, now).missedCount == 0
  {
    if docs != [] {
      var init := docs[..|docs| - 1];
      assert forall i | 0 <= i < |init| :: init[i] == docs[i];
      QuietRun(init, ledger, now);
    }
  }

  /**
   * Idempotence: once a run's batch is committed, running again on the same
   * snapshot at the same time queues no e-mail and writes no entry, whatever
   * else the ledger has gained meanwhile.
   */
  lemma SweepIdempotent(docs: seq<UserDoc>, ledger: map<string, Alert>, now: int, committed: map<string, Alert>)
    requires (ledger + Plan(docs, ledger, now).batch).Keys <= committed.Keys
    ensures Plan(docs, committed, now).notices == []
    ensures Plan(docs, committed, now).batch == map[]
    ensures Plan(docs, committed, now).missedCount == 0
  {
    PlanBatchKeys(docs, ledger, now);
    forall i | 0 <= i < |docs| ensures !Decide(docs[i], committed, now).NewAlert? {
      var d := Decide(docs[i], ledger, now);
      if d.NewAlert? {
        assert AlertedIn(docs, ledger, now, d.key);
      }
    }
    QuietRun(docs, committed, now);
  }

  /**
   * A subject alerted by one run is never alerted again for the same
   * check-in: at any later time, whatever its document then holds besides
   * the same last check-in, its episode key is in any ledger that keeps the
   * committed batch.
   */
  lemma AlertedEpisodeStaysQuiet(docs: seq<UserDoc>, ledger: map<string, Alert>, now: int, i: int,
                                 doc: UserDoc, committed: map<string, Alert>, later: int)
    requires 0 <= i < |docs| && Decide(docs[i], ledger, now).NewAlert?
    requires doc.id == docs[i].id && doc.user.lastCheckIn == docs[i].user.lastCheckIn
    requires Plan(docs, ledger, now).batch.Keys <= committed.Keys
    ensures !Decide(doc, committed, later).NewAlert?
  {
    PlanBatchKeys(docs, ledger, now);
    assert AlertedIn(docs, ledger, now, Decide(docs[i], ledger, now).key);
  }

  /**
   * Every queued e-mail goes to a squad address of a subject the run newly
   * found overdue, and carries that subject's overdue amount.
   */
  lemma {:induction false} NoticesComeFromNewAlerts(docs: seq<UserDoc>, ledger: map<string, Alert>, now: int)
    ensures forall n | n in Plan(docs, ledger, now).notices ::
      exists i | 0 <= i < |docs| ::
        && docs[i].id == n.userId
        && Decide(docs[i], ledger, now).NewAlert?
        && Decide(docs[i], ledger, now).overdueMs == n.overdueMs
        && n.email in Emails(docs[i].user.squad)
  {
    if docs != [] {
      var init := docs[..|docs| - 1];
      var doc := docs[|docs| - 1];
      NoticesComeFromNewAlerts(init, ledger, now);
      assert docs == init + [doc];
      PlanAppend(init, doc, ledger, now);
      var before := Plan(init, ledger, now);
      forall n | n in Plan(docs, ledger, now).notices
        ensures exists i | 0 <= i < |docs| ::
          && docs[i].id == n.userId
          && Decide(docs[i], ledger, now).NewAlert?
          && Decide(docs[i], ledger, now).overdueMs == n.overdueMs
          && n.email in Emails(docs[i].user.squad)
      {
        if n in before.notices {
          var i :| 0 <= i < |init| && init[i].id == n.userId && Decide(init[i], ledger, now).NewAlert?
            && Decide(init[i], ledger, now).overdueMs == n.overdueMs && n.email in Emails(init[i].user.squad);
          assert docs[i] == init[i];
        } else {
          var d := Decide(doc, ledger, now);
          assert d.NewAlert?;
          var ns := NoticesFor(doc, d.overdueMs);
          var j :| 0 <= j < |ns| && ns[j] == n;
          assert Emails(doc.user.squad)[j] == n.email;
          assert docs[|docs| - 1] == doc;
        }
      }
    }
  }

  /**
   * With one document per subject, a later run never e-mails about a subject
   * whose episode an earlier run already alerted.
   */
  lemma LaterRunSkipsAlertedSubjects(docs: seq<UserDoc>, ledger: map<string, Alert>, now: int, later: int)
    requires forall i, j | 0 <= i < j < |docs| :: docs[i].id != docs[j].id
    ensures var committed := ledger + Plan(docs, ledger, now).batch;
            forall n, i | n in Plan(docs, committed, later).notices && 0 <= i < |docs| && docs[i].id == n.userId ::
              !Decide(docs[i], ledger, now).NewAlert?
  {
    var committed := ledger + Plan(docs, ledger, now).batch;
    NoticesComeFromNewAlerts(docs, committed, later);
    forall n, i | n in Plan(docs, committed, later).notices && 0 <= i < |docs| && docs[i].id == n.userId
      ensures !Decide(docs[i], ledger, now).NewAlert?
    {
      var j :| 0 <= j < |docs| && docs[j].id == n.userId && Decide(docs[j], committed, later).NewAlert?;
      assert i == j;
      if Decide(docs[i], ledger, now).NewAlert? {
        AlertedEpisodeStaysQuiet(docs, ledger, now, i, docs[i], committed, later);
      }
    }
  }

  /**
   * A new episode gets a new alert: after the subject checks in again at a
   * different time, the old episode's key no longer matches, so once overdue
   * again the subject is alerted unless that new key is itself ledgered.
   */
  lemma NewEpisodeRealerts(id: UserId, u: User, checkInAt: int, ledger: map<string, Alert>, now: int)
    requires |u.squad| > 0 && u.lastCheckIn.Some? && u.lastCheckIn.value != checkInAt
    requires Liveness.Evaluate(now, checkInAt, u.checkInFrequency).Overdue?
    requires AlertKey(id, checkInAt) !in ledger
    ensures AlertKey(id, checkInAt) != AlertKey(id, u.lastCheckIn.value)
    ensures Decide(UserDoc(id, RecordCheckIn(u, checkInAt)), ledger, now) ==
            NewAlert(AlertKey(id, checkInAt), Liveness.Evaluate(now, checkInAt, u.checkInFrequency).overdueMs)
  {
    if AlertKey(id, checkInAt) == AlertKey(id, u.lastCheckIn.value) {
      AlertKeyInjective(id, checkInAt, id, u.lastCheckIn.value);
    }
  }

  /**
   * With one document per subject, the missed count is the number of ledger
   * entries the run writes: no two new alerts share a key.
   */
  lemma {:induction false} MissedCountIsBatchSize(docs: seq<UserDoc>, ledger: map<string, Alert>, now: int)
    requires forall i, j | 0 <= i < j < |docs| :: docs[i].id != docs[j].id
    ensures Plan(docs, ledger, now).missedCount == |Plan(docs, ledger, now).batch|
  {
    if docs != [] {
      var init := docs[..|docs| - 1];
      var doc := docs[|docs| - 1];
      assert docs == init + [doc];
      MissedCountIsBatchSize(init, ledger, now);
      PlanAppend(init, doc, ledger, now);
      var d := Decide(doc, ledger, now);
      if d.NewAlert? {
        PlanBatchKeys(init, ledger, now);
        if d.key in Plan(init, ledger, now).batch {
          var i :| 0 <= i < |init| && Decide(init[i], ledger, now).NewAlert? && Decide(init[i], ledger, now).key == d.key;
          AlertKeyInjective(init[i].id, init[i].user.lastCheckIn.value, doc.id, doc.user.lastCheckIn.value);
          assert false;
        }
      }
    }
  }

  /**
   * How many sends the transport reports as delivered; `outcomes` holds its
   * verdict for each send of the run, in send order.
   */
  function CountDelivered(outcomes: seq<bool>): (n: nat)
    ensures n <= |outcomes|
    ensures n == |outcomes| <==> forall i | 0 <= i < |outcomes| :: outcomes[i]
    ensures n == 0 <==> forall i | 0 <= i < |outcomes| :: !outcomes[i]
  {
    if outcomes == [] then 0
    else
      var init := outcomes[..|outcomes| - 1];
      assert forall i | 0 <= i < |init| :: init[i] == outcomes[i];
      CountDelivered(init) + (if outcomes[|outcomes| - 1] then 1 else 0)
  }

  /**
   * The count is additive: the deliveries of two runs of sends are those of
   * each; with `CountDelivered([b])` being 1 for a delivery and 0 for a
   * failure, this fixes the count of every sequence of verdicts.
   */
  lemma {:induction false} CountDeliveredAppend(a: seq<bool>, b: seq<bool>)
    ensures CountDelivered(a + b) == CountDelivered(a) + CountDelivered(b)
    ensures |b| == 1 ==> CountDelivered(b) == if b[0] then 1 else 0
  {
    if b != [] {
      var b' := b[..|b| - 1];
      assert (a + b)[..|a + b| - 1] == a + b';
      assert (a + b)[|a + b| - 1] == b[|b| - 1];
      CountDeliveredAppend(a, b');
      if |b| == 1 {
        assert b' == [];
      }
    } else {
      assert a + b == a;
    }
  }

  /**
   * A failed send does not stop the others: with three squad members and the
   * second send failing, two are reported sent and one failed.
   */
  lemma OneFailureOfThree(doc: UserDoc, overdueMs: int)
    requires |doc.user.squad| == 3
    ensures |NoticesFor(doc, overdueMs)| == 3
    ensures CountDelivered([true, false, true]) == 2
    ensures |NoticesFor(doc, overdueMs)| - CountDelivered([true, false, true]) == 1
  {
    assert [true, false, true][..2] == [true, false];
    assert [true, false][..1] == [true];
  }
}
