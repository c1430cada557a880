/**
 * The store behind the HTTP handlers of server.js, as one object whose
 * collections the handlers update in place: subjects by device id, watch
 * rows, the check-in log and the missed-check-in alert ledger. Each handler
 * is modelled as one update that runs to completion with no store failure;
 * the source's paths that can stop part way are listed in README. The
 * class invariant is the one the counters exist for: a subject's
 * `watchersCount` is the number of watch rows that target it.
 */
module Registry {
  import opened Wrappers
  import opened Records
  import Liveness
  import Text
  import opened AlertKeys
  import Sweep

  /** The id of a row of the `watching` collection. */
  type WatchId = nat

  /** The watch rows that target subject `u`. */
  function WatchersOf(watches: map<WatchId, Watch>, u: UserId): set<WatchId> {
    set w | w in watches && watches[w].targetId == u
  }

  lemma WatchersOfInsert(watches: map<WatchId, Watch>, w: WatchId, row: Watch, u: UserId)
    requires w !in watches
    ensures row.targetId == u ==> |WatchersOf(watches[w := row], u)| == |WatchersOf(watches, u)| + 1
    ensures row.targetId != u ==> WatchersOf(watches[w := row], u) == WatchersOf(watches, u)
  {
    if row.targetId == u {
      assert WatchersOf(watches[w := row], u) == WatchersOf(watches, u) + {w};
    } else {
      assert WatchersOf(watches[w := row], u) == WatchersOf(watches, u);
    }
  }

  lemma WatchersOfRemove(watches: map<WatchId, Watch>, w: WatchId, u: UserId)
    requires w in watches
    ensures watches[w].targetId == u ==> |WatchersOf(watches - {w}, u)| == |WatchersOf(watches, u)| - 1
    ensures watches[w].targetId != u ==> WatchersOf(watches - {w}, u) == WatchersOf(watches, u)
  {
    if watches[w].targetId == u {
      assert WatchersOf(watches - {w}, u) == WatchersOf(watches, u) - {w};
    } else {
      assert WatchersOf(watches - {w}, u) == WatchersOf(watches, u);
    }
  }

  /**
   * The subject a handler behind the device middleware works on: the stored
   * record, or the defaults the middleware has just stored for a new device.
   */
  function Resolved(users: map<UserId, User>, id: UserId): (u: User)
    ensures id !in users ==> u == NewUser()
    ensures id in users ==> u == users[id]
  {
    if id in users then users[id] else NewUser()
  }

  /** The name shown to others: the trimmed custom name when non-empty, else the display name when non-empty, else "User " followed by the code. */
  function WatchName(customName: Option<string>, displayName: string, code: string): (name: string)
    ensures customName.Some? && Text.Trim(customName.value) != "" ==> name == Text.Trim(customName.value)
    ensures (customName.None? || Text.Trim(customName.value) == "") && displayName != "" ==> name == displayName
    ensures (customName.None? || Text.Trim(customName.value) == "") && displayName == "" ==> name == "User " + code
    ensures name != ""
  {
    if customName.Some? && Text.Trim(customName.value) != "" then Text.Trim(customName.value)
    else if displayName != "" then displayName
    else "User " + code
  }

  /** Some subject holds invite code `code`. */
  predicate CodeInUse(users: map<UserId, User>, code: string) {
    exists t | t in users :: users[t].code == Some(code)
  }

  /** How many candidate codes the code route tries before giving up. */
  const CodeAttempts := 10

  /** A character generateCode draws from: capitals and digits without I, O, 0 and 1. */
  predicate CodeChar(c: char) {
    ('A' <= c <= 'Z' && c != 'I' && c != 'O') || ('2' <= c <= '9')
  }

  /** A code generateCode can return: six code characters. */
  predicate IsGeneratedCode(code: string) {
    |code| == 6 && forall i | 0 <= i < |code| :: CodeChar(code[i])
  }

  /**
   * The first of `candidates[i..bound]` that no subject holds, or `bound`
   * when every one of them is taken.
   */
  function FirstFree(users: map<UserId, User>, candidates: seq<string>, i: nat, bound: nat): (k: nat)
    requires i <= bound <= |candidates|
    ensures i <= k <= bound
    ensures k < bound ==> !CodeInUse(users, candidates[k])
    ensures forall j | i <= j < k :: CodeInUse(users, candidates[j])
    decreases bound - i
  {
    if i == bound || !CodeInUse(users, candidates[i]) then i else FirstFree(users, candidates, i + 1, bound)
  }

  /**
   * A generated code is its own normal form with six code units, so the
   * watch route looks it up exactly as it was issued.
   */
  lemma GeneratedCodeNormal(code: string)
    requires IsGeneratedCode(code)
    ensures Text.NormalizeCode(code) == code && Text.Utf16Length(code) == 6
  {
    assert Text.Upper(code) == code;
    assert !Text.IsSpace(code[0]) && !Text.IsSpace(code[5]);
    assert Text.LeadingSpaces(code) == 0;
    assert Text.TrailingStart(code) == 6;
    assert forall i | 0 <= i < 6 :: code[i] as int < 0x1_0000;
  }

  /** `watcher` already has a row on the subject holding invite code `code`. */
  predicate WatchesCode(users: map<UserId, User>, watches: map<WatchId, Watch>, watcher: UserId, code: string) {
    exists w | w in watches :: watches[w].watcherId == watcher && watches[w].targetId in users && users[watches[w].targetId].code == Some(code)
  }

  /**
   * The checks of POST /api/watching/add (server.js:998-1043), in their
   * order: a device id, a code, six characters after upper-casing and
   * trimming, a subject holding the code, and no row of this watcher on that
   * subject yet; the result is the target's id.
   */
  function WatchTarget(users: map<UserId, User>, watches: map<WatchId, Watch>, watcherId: UserId, code: string): (r: Result<UserId>)
    requires UsersValid(users)
    ensures r == Err(DeviceIdRequired) <==> watcherId == ""
    ensures r == Err(CodeRequired) <==> watcherId != "" && code == ""
    ensures r == Err(CodeWrongLength) <==> watcherId != "" && code != "" && Text.Utf16Length(Text.NormalizeCode(code)) != 6
    ensures r == Err(CodeNotFound) <==>
      watcherId != "" && code != "" && Text.Utf16Length(Text.NormalizeCode(code)) == 6 && !CodeInUse(users, Text.NormalizeCode(code))
    ensures r == Err(AlreadyWatching) <==>
      && watcherId != "" && code != "" && Text.Utf16Length(Text.NormalizeCode(code)) == 6 && CodeInUse(users, Text.NormalizeCode(code))
      && WatchesCode(users, watches, watcherId, Text.NormalizeCode(code))
    ensures r.Ok? ==> r.value in users && users[r.value].code == Some(Text.NormalizeCode(code))
    ensures r.Ok? ==> forall w | w in watches && watches[w].watcherId == watcherId :: watches[w].targetId != r.value
    ensures r.Ok? <==>
      && watcherId != "" && code != "" && Text.Utf16Length(Text.NormalizeCode(code)) == 6
      && CodeInUse(users, Text.NormalizeCode(code)) && !WatchesCode(users, watches, watcherId, Text.NormalizeCode(code))
  {
    if watcherId == "" then Err(DeviceIdRequired)
    else if code == "" then Err(CodeRequired)
    else
      var c := Text.NormalizeCode(code);
      if Text.Utf16Length(c) != 6 then Err(CodeWrongLength)
      else if !CodeInUse(users, c) then Err(CodeNotFound)
      else
        var t :| t in users && users[t].code == Some(c);
        if exists w | w in watches :: watches[w].watcherId == watcherId && watches[w].targetId == t then Err(AlreadyWatching)
        else Ok(t)
  }

  /**
   * Whoever is given a subject's generated code, and does not watch that
   * subject yet, gets that subject from the watch route's checks.
   */
  lemma WatchIssuedCode(users: map<UserId, User>, watches: map<WatchId, Watch>, watcherId: UserId, t: UserId, code: string)
    requires UsersValid(users) && t in users && users[t].code == Some(code) && IsGeneratedCode(code)
    requires watcherId != "" && forall w | w in watches && watches[w].watcherId == watcherId :: watches[w].targetId != t
    ensures WatchTarget(users, watches, watcherId, code) == Ok(t)
  {
    GeneratedCodeNormal(code);
    var r := WatchTarget(users, watches, watcherId, code);
    assert CodeInUse(users, code);
    assert !WatchesCode(users, watches, watcherId, code);
  }

  /**
   * The checks of DELETE /api/watching/:id (server.js:1168-1190): a device
   * id, an existing row, and a row of this watcher; the result is the row.
   */
  function RemovalCheck(watches: map<WatchId, Watch>, id: WatchId, deviceId: UserId): (r: Result<Watch>)
    ensures r == Err(DeviceIdRequired) <==> deviceId == ""
    ensures r == Err(WatchNotFound) <==> deviceId != "" && id !in watches
    ensures r == Err(NotWatcher) <==> deviceId != "" && id in watches && watches[id].watcherId != deviceId
    ensures r.Ok? ==> id in watches && r.value == watches[id] && r.value.watcherId == deviceId
    ensures r.Ok? <==> deviceId != "" && id in watches && watches[id].watcherId == deviceId
  {
    if deviceId == "" then Err(DeviceIdRequired)
    else if id !in watches then Err(WatchNotFound)
    else if watches[id].watcherId != deviceId then Err(NotWatcher)
    else Ok(watches[id])
  }

  /**
   * The reply of the check-in status route: the status, the cadence with its
   * default applied, the last check-in and the two counters.
   */
  datatype StatusReply = StatusReply(status: Liveness.CheckInStatus, checkInFrequency: int, lastCheckIn: Option<int>, streak: nat, totalCheckIns: nat)

  /** The counts reported by the account-deletion cascade. */
  datatype Deleted = Deleted(watchingEntriesTarget: nat, watchingEntriesWatcher: nat, checkins: nat, alerts: nat)

  /** The counters a sweep logs. */
  datatype SweepReport = SweepReport(totalUsers: nat, usersWithSquad: nat, missedCount: nat, emailsSent: nat, emailsFailed: nat)

  /** Every watch row targets a stored subject and has an id below `next`. */
  ghost predicate RowsValid(users: map<UserId, User>, watches: map<WatchId, Watch>, next: WatchId) {
    forall w | w in watches :: w < next && watches[w].targetId in users
  }

  /** Every subject's counter is the number of rows that target it. */
  ghost predicate CountsValid(users: map<UserId, User>, watches: map<WatchId, Watch>) {
    forall u | u in users :: users[u].watchersCount == |WatchersOf(watches, u)|
  }

  /** Every squad is valid and no two subjects share an invite code. */
  ghost predicate UsersValid(users: map<UserId, User>) {
    && (forall u | u in users :: SquadValid(users[u].squad))
    && (forall u, v | u in users && v in users && users[u].code.Some? && users[u].code == users[v].code :: u == v)
  }

  /** Every ledger entry is stored under the episode key of what it records. */
  ghost predicate LedgerValid(ledger: map<string, Alert>) {
    forall k | k in ledger :: ledger[k].alertKey == k && k == AlertKey(ledger[k].userId, ledger[k].lastCheckIn)
  }

  ghost predicate ValidState(users: map<UserId, User>, watches: map<WatchId, Watch>, next: WatchId, ledger: map<string, Alert>) {
    RowsValid(users, watches, next) && CountsValid(users, watches) && UsersValid(users) && LedgerValid(ledger)
  }

  /** A new device gets a default record, which no row targets yet. */
  lemma AddUserValid(users: map<UserId, User>, watches: map<WatchId, Watch>, next: WatchId, ledger: map<string, Alert>, id: UserId)
    requires ValidState(users, watches, next, ledger) && id !in users
    ensures ValidState(users[id := NewUser()], watches, next, ledger)
  {
    assert WatchersOf(watches, id) == {};
  }

  /** Replacing a subject's record keeps the invariant when counter, code and squad validity are kept. */
  lemma SetUserValid(users: map<UserId, User>, watches: map<WatchId, Watch>, next: WatchId, ledger: map<string, Alert>, id: UserId, v: User)
    requires ValidState(users, watches, next, ledger) && id in users
    requires v.watchersCount == users[id].watchersCount && v.code == users[id].code && SquadValid(v.squad)
    ensures ValidState(users[id := v], watches, next, ledger)
  {
    var users' := users[id := v];
    assert users'.Keys == users.Keys;
    forall u | u in users'
      ensures users'[u].watchersCount == users[u].watchersCount && users'[u].code == users[u].code && SquadValid(users'[u].squad)
    {
    }
  }

  /**
   * What a handler behind the device middleware stores for the subject (the
   * record the middleware resolved, created if new, then updated) keeps the
   * invariant when counter, code and squad validity are those of the
   * resolved record.
   */
  lemma SetResolvedValid(users: map<UserId, User>, watches: map<WatchId, Watch>, next: WatchId, ledger: map<string, Alert>, id: UserId, v: User)
    requires ValidState(users, watches, next, ledger)
    requires v.watchersCount == Resolved(users, id).watchersCount && v.code == Resolved(users, id).code && SquadValid(v.squad)
    ensures ValidState(users[id := v], watches, next, ledger)
  {
    if id in users {
      SetUserValid(users, watches, next, ledger, id, v);
    } else {
      assert WatchersOf(watches, id) == {};
      var users' := users[id := v];
      forall u | u in users'
        ensures users'[u].watchersCount == |WatchersOf(watches, u)| && SquadValid(users'[u].squad)
      {
      }
    }
  }

  lemma AddMemberKeepsValid(users: map<UserId, User>, watches: map<WatchId, Watch>, next: WatchId, ledger: map<string, Alert>,
                            id: UserId, email: string, memberId: string, addedAt: int)
    requires ValidState(users, watches, next, ledger)
    ensures var u := Resolved(users, id);
      var r := AddMember(u.squad, email, memberId, addedAt);
      ValidState(users[id := if r.Ok? then u.(squad := r.value) else u], watches, next, ledger)
  {
    var u := Resolved(users, id);
    var r := AddMember(u.squad, email, memberId, addedAt);
    AddMemberValid(u.squad, email, memberId, addedAt);
    SetResolvedValid(users, watches, next, ledger, id, if r.Ok? then u.(squad := r.value) else u);
  }

  /** Giving a subject without a code a code nobody holds keeps the invariant. */
  lemma SetCodeValid(users: map<UserId, User>, watches: map<WatchId, Watch>, next: WatchId, ledger: map<string, Alert>, id: UserId, code: string)
    requires ValidState(users, watches, next, ledger)
    requires Resolved(users, id).code == None && !CodeInUse(users, code)
    ensures ValidState(users[id := Resolved(users, id).(code := Some(code))], watches, next, ledger)
  {
    var u := Resolved(users, id);
    var v := u.(code := Some(code));
    var users' := users[id := v];
    if id !in users {
      assert WatchersOf(watches, id) == {};
    }
    forall a, b | a in users' && b in users' && users'[a].code.Some? && users'[a].code == users'[b].code
      ensures a == b
    {
      if a != id && b != id {
        assert users[a].code == users'[a].code && users[b].code == users'[b].code;
      }
    }
    forall a | a in users' ensures users'[a].watchersCount == |WatchersOf(watches, a)| && SquadValid(users'[a].squad) {
      if a != id {
        assert users'[a] == users[a];
      }
    }
  }

  lemma RemoveMemberKeepsValid(users: map<UserId, User>, watches: map<WatchId, Watch>, next: WatchId, ledger: map<string, Alert>, id: UserId, memberId: string)
    requires ValidState(users, watches, next, ledger)
    ensures var u := Resolved(users, id);
      var r := RemoveMember(u.squad, memberId);
      ValidState(users[id := if r.Ok? then u.(squad := r.value) else u], watches, next, ledger)
  {
    var u := Resolved(users, id);
    if RemoveMember(u.squad, memberId).Ok? {
      WithoutMemberValid(u.squad, memberId);
    }
    SetResolvedValid(users, watches, next, ledger, id, var r := RemoveMember(u.squad, memberId); if r.Ok? then u.(squad := r.value) else u);
  }

  /**
   * The loop of checkMissedCheckIns over the snapshot (server.js:412-482),
   * subject by subject in snapshot order.
   */
  method ScanSubjects(docs: seq<Sweep.UserDoc>, ledger: map<string, Alert>, now: int)
    returns (totalUsers: nat, usersWithSquad: nat, missedCount: nat, notices: seq<Sweep.Notice>, batch: map<string, Alert>)
    ensures Sweep.Tally(totalUsers, usersWithSquad, missedCount, notices, batch) == Sweep.Plan(docs, ledger, now)
  {
    totalUsers, usersWithSquad, missedCount := 0, 0, 0;
    notices, batch := [], map[];
    var i := 0;
    while i < |docs|
      invariant i <= |docs|
      invariant Sweep.Tally(totalUsers, usersWithSquad, missedCount, notices, batch) == Sweep.Plan(docs[..i], ledger, now)
    {
      Sweep.PlanNext(docs, i, ledger, now);
      totalUsers, usersWithSquad, missedCount, notices, batch :=
        ScanSubject(docs[i], ledger, now, totalUsers, usersWithSquad, missedCount, notices, batch);
      i := i + 1;
    }
    assert docs[..i] == docs;
  }

  /**
   * One pass of that loop (server.js:413-481): the subject is counted; one
   * without squad is skipped, then one without a check-in; an overdue
   * subject whose episode key is not yet ledgered is missed, gets one queued
   * e-mail per squad address and one batch entry.
   */
  method ScanSubject(doc: Sweep.UserDoc, ledger: map<string, Alert>, now: int,
                     totalUsers0: nat, usersWithSquad0: nat, missedCount0: nat, notices0: seq<Sweep.Notice>, batch0: map<string, Alert>)
    returns (totalUsers: nat, usersWithSquad: nat, missedCount: nat, notices: seq<Sweep.Notice>, batch: map<string, Alert>)
    ensures Sweep.Tally(totalUsers, usersWithSquad, missedCount, notices, batch)
         == Sweep.Step(Sweep.Tally(totalUsers0, usersWithSquad0, missedCount0, notices0, batch0), doc, ledger, now)
  {
    totalUsers, usersWithSquad, missedCount, notices, batch := totalUsers0 + 1, usersWithSquad0, missedCount0, notices0, batch0;
    var squad := doc.user.squad;
    if |squad| == 0 {
      return;
    }
    usersWithSquad := usersWithSquad + 1;
    if doc.user.lastCheckIn.None? {
      return;
    }
    var last := doc.user.lastCheckIn.value;
    var gracePeriodMs := Liveness.IntervalMs(doc.user.checkInFrequency) * 2;
    var timeSinceCheckIn := now - last;
    if timeSinceCheckIn > gracePeriodMs {
      var overdueTime := timeSinceCheckIn - gracePeriodMs;
      var alertKey := AlertKey(doc.id, last);
      if alertKey in ledger {
        return;
      }
      missedCount := missedCount + 1;
      notices := QueueNotices(notices, doc, overdueTime);
      batch := batch[alertKey := Sweep.AlertFor(doc, alertKey, overdueTime)];
    }
  }

  /** One queued e-mail per squad address, in squad order. */
  method QueueNotices(queued: seq<Sweep.Notice>, doc: Sweep.UserDoc, overdueMs: int) returns (notices: seq<Sweep.Notice>)
    ensures notices == queued + Sweep.NoticesFor(doc, overdueMs)
  {
    notices := queued;
    var j := 0;
    while j < |doc.user.squad|
      invariant j <= |doc.user.squad|
      invariant notices == queued + Sweep.NoticesFor(doc, overdueMs)[..j]
    {
      assert Sweep.NoticesFor(doc, overdueMs)[..j + 1] == Sweep.NoticesFor(doc, overdueMs)[..j] + [Sweep.NoticesFor(doc, overdueMs)[j]];
      notices := notices + [Sweep.Notice(doc.id, doc.user.squad[j].email, overdueMs)];
      j := j + 1;
    }
    assert Sweep.NoticesFor(doc, overdueMs)[..j] == Sweep.NoticesFor(doc, overdueMs);
  }

  /**
   * The `.then` of each send: a delivered e-mail counts as sent, any other
   * as failed; `outcomes[k]` is the transport's verdict on `notices[k]`.
   */
  method TallySends(notices: seq<Sweep.Notice>, outcomes: seq<bool>) returns (emailsSent: nat, emailsFailed: nat)
    requires |outcomes| == |notices|
    ensures emailsSent == Sweep.CountDelivered(outcomes)
    ensures emailsSent + emailsFailed == |notices|
  {
    emailsSent, emailsFailed := 0, 0;
    var k := 0;
    while k < |notices|
      invariant k <= |notices|
      invariant emailsSent == Sweep.CountDelivered(outcomes[..k]) && emailsSent + emailsFailed == k
    {
      assert outcomes[..k + 1][..k] == outcomes[..k];
      if outcomes[k] {
        emailsSent := emailsSent + 1;
      } else {
        emailsFailed := emailsFailed + 1;
      }
      k := k + 1;
    }
    assert outcomes[..k] == outcomes;
  }

  /**
   * `docs` is what the sweep's query returns: one document per stored subject
   * that has checked in, carrying that subject's record.
   */
  ghost predicate IsSnapshot(users: map<UserId, User>, docs: seq<Sweep.UserDoc>) {
    && (forall i | 0 <= i < |docs| :: docs[i].id in users && users[docs[i].id] == docs[i].user && docs[i].user.lastCheckIn.Some?)
    && (forall i, j | 0 <= i < j < |docs| :: docs[i].id != docs[j].id)
    && (forall u | u in users && users[u].lastCheckIn.Some? :: exists i | 0 <= i < |docs| :: docs[i].id == u)
  }

  /**
   * A sweep over the store's snapshot alerts every stored subject that has a
   * squad, is overdue and whose episode is not ledgered yet.
   */
  lemma SnapshotSweepAlertsOverdue(users: map<UserId, User>, docs: seq<Sweep.UserDoc>, ledger: map<string, Alert>, now: int, u: UserId)
    requires IsSnapshot(users, docs)
    requires u in users && |users[u].squad| > 0 && users[u].lastCheckIn.Some?
    requires Liveness.Evaluate(now, users[u].lastCheckIn.value, users[u].checkInFrequency).Overdue?
    requires AlertKey(u, users[u].lastCheckIn.value) !in ledger
    ensures AlertKey(u, users[u].lastCheckIn.value) in Sweep.Plan(docs, ledger, now).batch
  {
    Sweep.PlanBatchKeys(docs, ledger, now);
    var i :| 0 <= i < |docs| && docs[i].id == u;
    assert Sweep.AlertedIn(docs, ledger, now, AlertKey(u, users[u].lastCheckIn.value));
  }

  /**
   * A sweep over the store's snapshot alerts only stored subjects and, one
   * document per subject, misses as many subjects as it writes entries.
   */
  lemma SnapshotSweepAlertsStored(users: map<UserId, User>, docs: seq<Sweep.UserDoc>, ledger: map<string, Alert>, now: int)
    requires IsSnapshot(users, docs)
    ensures var batch := Sweep.Plan(docs, ledger, now).batch;
      forall k | k in batch :: batch[k].userId in users
    ensures Sweep.Plan(docs, ledger, now).missedCount == |Sweep.Plan(docs, ledger, now).batch|
  {
    var batch := Sweep.Plan(docs, ledger, now).batch;
    Sweep.PlanBatchKeys(docs, ledger, now);
    Sweep.PlanBatchEntries(docs, ledger, now);
    Sweep.MissedCountIsBatchSize(docs, ledger, now);
    forall k | k in batch ensures batch[k].userId in users {
      var i :| 0 <= i < |docs| && Sweep.Decide(docs[i], ledger, now).NewAlert? && Sweep.Decide(docs[i], ledger, now).key == k;
      AlertKeyInjective(batch[k].userId, batch[k].lastCheckIn, docs[i].id, docs[i].user.lastCheckIn.value);
    }
  }

  /** Committing a batch whose entries sit under their own episode keys keeps the invariant. */
  lemma CommitValid(users: map<UserId, User>, watches: map<WatchId, Watch>, next: WatchId, ledger: map<string, Alert>, docs: seq<Sweep.UserDoc>, now: int)
    requires ValidState(users, watches, next, ledger)
    ensures ValidState(users, watches, next, ledger + Sweep.Plan(docs, ledger, now).batch)
  {
    Sweep.PlanBatchEntries(docs, ledger, now);
  }

  /** Inserting a row under a fresh id together with one increment of its target keeps the invariant. */
  lemma InsertWatchValid(users: map<UserId, User>, watches: map<WatchId, Watch>, next: WatchId, ledger: map<string, Alert>, row: Watch)
    requires ValidState(users, watches, next, ledger) && row.targetId in users
    ensures var t := row.targetId;
            ValidState(Bumped(users, t), watches[next := row], next + 1, ledger)
  {
    var t := row.targetId;
    var users' := Bumped(users, t);
    assert users'.Keys == users.Keys;
    forall u | u in users'
      ensures users'[u].watchersCount == |WatchersOf(watches[next := row], u)|
      ensures users'[u].code == users[u].code && users'[u].squad == users[u].squad
    {
      WatchersOfInsert(watches, next, row, u);
    }
  }

  /** Deleting a row together with one floored decrement of its target keeps the invariant. */
  lemma RemoveWatchValid(users: map<UserId, User>, watches: map<WatchId, Watch>, next: WatchId, ledger: map<string, Alert>, id: WatchId)
    requires ValidState(users, watches, next, ledger) && id in watches
    ensures var t := watches[id].targetId;
            && t in users
            && ValidState(Dropped(users, t), watches - {id}, next, ledger)
  {
    var t := watches[id].targetId;
    var users' := Dropped(users, t);
    assert id in WatchersOf(watches, t);
    assert users'.Keys == users.Keys;
    forall u | u in users'
      ensures users'[u].watchersCount == |WatchersOf(watches - {id}, u)|
      ensures users'[u].code == users[u].code && users'[u].squad == users[u].squad
    {
      WatchersOfRemove(watches, id, u);
    }
  }

  /** The watch rows of everyone but `id` as a target. */
  function RowsNotTargeting(watches: map<WatchId, Watch>, id: UserId): (r: map<WatchId, Watch>)
    ensures r.Keys == set w | w in watches && watches[w].targetId != id
    ensures forall w | w in r :: r[w] == watches[w]
  {
    map w | w in watches && watches[w].targetId != id :: watches[w]
  }

  /** The ledger entries of every subject but `id`. */
  function EntriesNotOf(ledger: map<string, Alert>, id: UserId): (r: map<string, Alert>)
    ensures r.Keys == set k | k in ledger && ledger[k].userId != id
    ensures forall k | k in r :: r[k] == ledger[k]
  {
    map k | k in ledger && ledger[k].userId != id :: ledger[k]
  }

  /**
   * Deleting a subject together with the rows that target it and its
   * ledger entries keeps the invariant, whatever rows it still watches
   * through, and leaves no entry under any episode key of that subject.
   */
  lemma DeleteUserValid(users: map<UserId, User>, watches: map<WatchId, Watch>, next: WatchId, ledger: map<string, Alert>, id: UserId)
    requires ValidState(users, watches, next, ledger)
    ensures ValidState(users - {id}, RowsNotTargeting(watches, id), next, EntriesNotOf(ledger, id))
    ensures forall t :: AlertKey(id, t) !in EntriesNotOf(ledger, id)
  {
    var watches' := RowsNotTargeting(watches, id);
    forall u | u in users - {id} ensures WatchersOf(watches', u) == WatchersOf(watches, u) {
    }
    var ledger' := EntriesNotOf(ledger, id);
    forall t ensures AlertKey(id, t) !in ledger' {
      var k := AlertKey(id, t);
      if k in ledger' {
        AlertKeyInjective(ledger[k].userId, ledger[k].lastCheckIn, id, t);
      }
    }
  }

  class Store {
    var users: map<UserId, User>
    var watches: map<WatchId, Watch>
    var nextWatchId: WatchId
    var checkins: seq<CheckInEvent>
    var ledger: map<string, Alert>

    ghost predicate Valid()
      reads this
    {
      ValidState(users, watches, nextWatchId, ledger)
    }

    constructor ()
      ensures Valid()
      ensures users == map[] && watches == map[] && checkins == [] && ledger == map[]
    {
      users := map[];
      watches := map[];
      nextWatchId := 0;
      checkins := [];
      ledger := map[];
    }

    /**
     * The device middleware (getDeviceId with getUserByDeviceId): an empty
     * id is refused; an unknown device gets the default record; `Ok(isNew)`.
     */
    method ResolveUser(deviceId: UserId) returns (r: Result<bool>)
      requires Valid()
      modifies this
      ensures Valid()
      ensures deviceId == "" ==> r == Err(DeviceIdRequired) && users == old(users)
      ensures deviceId != "" ==> r == Ok(deviceId !in old(users)) && users == old(users)[deviceId := Resolved(old(users), deviceId)]
      ensures watches == old(watches) && nextWatchId == old(nextWatchId) && checkins == old(checkins) && ledger == old(ledger)
    {
      if deviceId == "" {
        return Err(DeviceIdRequired);
      }
      if deviceId in users {
        return Ok(false);
      }
      AddUserValid(users, watches, nextWatchId, ledger, deviceId);
      users := users[deviceId := NewUser()];
      return Ok(true);
    }

    /**
     * POST /api/users/generate-code (server.js:684-735), behind the device
     * middleware: a subject that has a code gets it back; otherwise up to
     * ten candidates are tried in turn and the first nobody holds becomes
     * the subject's code. `candidates` are the successive results of
     * generateCode.
     */
    method GenerateCode(deviceId: UserId, candidates: seq<string>) returns (r: Result<string>)
      requires Valid() && |candidates| > CodeAttempts
      requires forall i | 0 <= i < |candidates| :: IsGeneratedCode(candidates[i])
      modifies this
      ensures Valid()
      ensures deviceId == "" ==> r == Err(DeviceIdRequired) && users == old(users)
      ensures deviceId != "" && Resolved(old(users), deviceId).code.Some? ==>
        var u := Resolved(old(users), deviceId);
        r == Ok(u.code.value) && users == old(users)[deviceId := u]
      ensures deviceId != "" && Resolved(old(users), deviceId).code.None? ==>
        var u := Resolved(old(users), deviceId);
        var k := FirstFree(old(users), candidates, 0, CodeAttempts);
        && (k < CodeAttempts ==> r == Ok(candidates[k]) && users == old(users)[deviceId := u.(code := Some(candidates[k]))])
        && (k == CodeAttempts ==> r == Err(CodeGenerationFailed) && users == old(users)[deviceId := u])
      ensures r.Ok? && Resolved(old(users), deviceId).code.None? ==> IsGeneratedCode(r.value) && !CodeInUse(old(users), r.value)
      ensures watches == old(watches) && nextWatchId == old(nextWatchId) && checkins == old(checkins) && ledger == old(ledger)
    {
      if deviceId == "" {
        return Err(DeviceIdRequired);
      }
      var u := Resolved(users, deviceId);
      if u.code.Some? {
        SetResolvedValid(users, watches, nextWatchId, ledger, deviceId, u);
        users := users[deviceId := u];
        return Ok(u.code.value);
      }
      var code := candidates[0];
      var attempts := 0;
      while attempts < CodeAttempts
        invariant 0 <= attempts <= CodeAttempts && code == candidates[attempts]
        invariant FirstFree(users, candidates, 0, CodeAttempts) == FirstFree(users, candidates, attempts, CodeAttempts)
      {
        if !CodeInUse(users, code) {
          break;
        }
        code := candidates[attempts + 1];
        attempts := attempts + 1;
      }
      if attempts >= CodeAttempts {
        SetResolvedValid(users, watches, nextWatchId, ledger, deviceId, u);
        users := users[deviceId := u];
        return Err(CodeGenerationFailed);
      }
      SetCodeValid(users, watches, nextWatchId, ledger, deviceId, code);
      users := users[deviceId := u.(code := Some(code))];
      r := Ok(code);
    }

    /**
     * POST /api/users/checkin, behind the device middleware: the streak
     * rule, one more lifetime check-in and `lastCheckIn := now` on the
     * subject, together with one appended event.
     */
    method CheckIn(deviceId: UserId, now: int) returns (r: Result<User>)
      requires Valid()
      modifies this
      ensures Valid()
      ensures deviceId == "" ==> r == Err(DeviceIdRequired) && users == old(users) && checkins == old(checkins)
      ensures deviceId != "" ==>
        var v := RecordCheckIn(Resolved(old(users), deviceId), now);
        && r == Ok(v)
        && users == old(users)[deviceId := v]
        && checkins == old(checkins) + [CheckInEvent(deviceId, now, v.streak, v.totalCheckIns)]
      ensures watches == old(watches) && nextWatchId == old(nextWatchId) && ledger == old(ledger)
    {
      if deviceId == "" {
        return Err(DeviceIdRequired);
      }
      var v := RecordCheckIn(Resolved(users, deviceId), now);
      SetResolvedValid(users, watches, nextWatchId, ledger, deviceId, v);
      users := users[deviceId := v];
      checkins := checkins + [CheckInEvent(deviceId, now, v.streak, v.totalCheckIns)];
      r := Ok(v);
    }

    /**
     * POST /api/users/checkin/status, behind the device middleware: whether
     * the subject may check in now, and how long until it may.
     */
    method Status(deviceId: UserId, now: int) returns (r: Result<StatusReply>)
      requires Valid()
      modifies this
      ensures Valid()
      ensures deviceId == "" ==> r == Err(DeviceIdRequired) && users == old(users)
      ensures deviceId != "" ==>
        var u := Resolved(old(users), deviceId);
        && r == Ok(StatusReply(Liveness.StatusAt(u.lastCheckIn, u.checkInFrequency, now), Liveness.EffectiveDays(u.checkInFrequency),
                               u.lastCheckIn, u.streak, u.totalCheckIns))
        && users == old(users)[deviceId := u]
      ensures watches == old(watches) && nextWatchId == old(nextWatchId) && checkins == old(checkins) && ledger == old(ledger)
    {
      if deviceId == "" {
        return Err(DeviceIdRequired);
      }
      var u := Resolved(users, deviceId);
      SetResolvedValid(users, watches, nextWatchId, ledger, deviceId, u);
      users := users[deviceId := u];
      var intervalMs := Liveness.IntervalMs(u.checkInFrequency);
      var canCheckIn := true;
      var timeRemaining := 0;
      if u.lastCheckIn.Some? {
        var since := now - u.lastCheckIn.value;
        if since < intervalMs {
          canCheckIn := false;
          timeRemaining := intervalMs - since;
        }
      }
      r := Ok(StatusReply(Liveness.CheckInStatus(canCheckIn, timeRemaining), Liveness.EffectiveDays(u.checkInFrequency),
                          u.lastCheckIn, u.streak, u.totalCheckIns));
    }

    /** POST /api/squad/add-member, behind the device middleware. */
    method AddSquadMember(deviceId: UserId, email: string, memberId: string, addedAt: int) returns (r: Result<seq<Member>>)
      requires Valid()
      modifies this
      ensures Valid()
      ensures deviceId == "" ==> r == Err(DeviceIdRequired) && users == old(users)
      ensures deviceId != "" ==>
        var u := Resolved(old(users), deviceId);
        && r == AddMember(u.squad, email, memberId, addedAt)
        && users == old(users)[deviceId := if r.Ok? then u.(squad := r.value) else u]
      ensures watches == old(watches) && nextWatchId == old(nextWatchId) && checkins == old(checkins) && ledger == old(ledger)
    {
      if deviceId == "" {
        return Err(DeviceIdRequired);
      }
      var u := Resolved(users, deviceId);
      r := AddMember(u.squad, email, memberId, addedAt);
      AddMemberKeepsValid(users, watches, nextWatchId, ledger, deviceId, email, memberId, addedAt);
      users := users[deviceId := if r.Ok? then u.(squad := r.value) else u];
    }

    /** POST /api/squad/members/:id/remove, behind the device middleware. */
    method RemoveSquadMember(deviceId: UserId, memberId: string) returns (r: Result<seq<Member>>)
      requires Valid()
      modifies this
      ensures Valid()
      ensures deviceId == "" ==> r == Err(DeviceIdRequired) && users == old(users)
      ensures deviceId != "" ==>
        var u := Resolved(old(users), deviceId);
        && r == RemoveMember(u.squad, memberId)
        && users == old(users)[deviceId := if r.Ok? then u.(squad := r.value) else u]
      ensures watches == old(watches) && nextWatchId == old(nextWatchId) && checkins == old(checkins) && ledger == old(ledger)
    {
      if deviceId == "" {
        return Err(DeviceIdRequired);
      }
      var u := Resolved(users, deviceId);
      r := RemoveMember(u.squad, memberId);
      RemoveMemberKeepsValid(users, watches, nextWatchId, ledger, deviceId, memberId);
      users := users[deviceId := if r.Ok? then u.(squad := r.value) else u];
    }

    /**
     * POST /api/watching/add: after the checks, one row is inserted under a
     * fresh id and the target's counter goes up by one, in one transaction.
     */
    method AddWatch(watcherId: UserId, code: string, customName: Option<string>) returns (r: Result<WatchId>)
      requires Valid()
      modifies this
      ensures checkins == old(checkins) && ledger == old(ledger)
      ensures Valid()
      ensures var check := WatchTarget(old(users), old(watches), watcherId, code);
        && (check.Err? ==> r == Err(check.failure) && users == old(users) && watches == old(watches) && nextWatchId == old(nextWatchId))
        && (check.Ok? ==>
              var t := check.value;
              var c := Text.NormalizeCode(code);
              && r == Ok(old(nextWatchId)) && old(nextWatchId) !in old(watches)
              && watches == old(watches)[old(nextWatchId) := Watch(watcherId, t, c, WatchName(customName, old(users)[t].displayName, c))]
              && nextWatchId == old(nextWatchId) + 1
              && users == Bumped(old(users), t))
    {
      var check := WatchTarget(users, watches, watcherId, code);
      if check.Err? {
        return Err(check.failure);
      }
      var t := check.value;
      var c := Text.NormalizeCode(code);
      var id := LinkWatch(Watch(watcherId, t, c, WatchName(customName, users[t].displayName, c)));
      r := Ok(id);
    }

    /**
     * One row inserted under a fresh id with its paired increment (the
     * transaction of watch addition).
     */
    method LinkWatch(row: Watch) returns (id: WatchId)
      requires Valid() && row.targetId in users
      modifies this
      ensures Valid()
      ensures id == old(nextWatchId) && id !in old(watches)
      ensures watches == old(watches)[id := row] && nextWatchId == id + 1
      ensures var t := row.targetId;
        users == Bumped(old(users), t)
      ensures checkins == old(checkins) && ledger == old(ledger)
    {
      var t := row.targetId;
      id := nextWatchId;
      InsertWatchValid(users, watches, nextWatchId, ledger, row);
      watches := watches[id := row];
      nextWatchId := nextWatchId + 1;
      users := Bumped(users, t);
    }

    /**
     * DELETE /api/watching/:id: after the checks, the row is deleted and the
     * target's counter drops by one, never below zero.
     */
    method RemoveWatch(id: WatchId, deviceId: UserId) returns (r: Result<Watch>)
      requires Valid()
      modifies this
      ensures Valid()
      ensures r == RemovalCheck(old(watches), id, deviceId)
      ensures r.Err? ==> users == old(users) && watches == old(watches)
      ensures r.Ok? ==>
        var t := r.value.targetId;
        && watches == old(watches) - {id}
        && t in old(users)
        && users == Dropped(old(users), t)
      ensures nextWatchId == old(nextWatchId) && checkins == old(checkins) && ledger == old(ledger)
    {
      r := RemovalCheck(watches, id, deviceId);
      if r.Ok? {
        UnlinkWatch(id);
      }
    }

    /**
     * One row deleted with its paired decrement (the transaction shared by
     * watch removal and the account-deletion cascade). The target always
     * exists here, since rows only target stored subjects.
     */
    method UnlinkWatch(id: WatchId)
      requires Valid() && id in watches
      modifies this
      ensures Valid()
      ensures watches == old(watches) - {id}
      ensures var t := old(watches)[id].targetId;
        && t in old(users)
        && users == Dropped(old(users), t)
      ensures nextWatchId == old(nextWatchId) && checkins == old(checkins) && ledger == old(ledger)
    {
      var t := watches[id].targetId;
      RemoveWatchValid(users, watches, nextWatchId, ledger, id);
      watches := watches - {id};
      users := Dropped(users, t);
    }

    /**
     * checkMissedCheckIns (server.js:386-502) over the query snapshot `docs`
     * (see IsSnapshot and the SnapshotSweep lemmas) at time `now`: the scan of the subjects, the ledger batch committed in
     * one write when anything was missed, and the transport's verdicts
     * `outcomes`, one per queued e-mail, tallied into sent and failed.
     */
    method RunSweep(docs: seq<Sweep.UserDoc>, now: int, outcomes: seq<bool>) returns (report: SweepReport, notices: seq<Sweep.Notice>)
      requires Valid() && |outcomes| == |Sweep.Plan(docs, ledger, now).notices|
      modifies this
      ensures Valid()
      ensures var plan := Sweep.Plan(docs, old(ledger), now);
        && notices == plan.notices
        && ledger == old(ledger) + plan.batch
        && report.totalUsers == plan.totalUsers && report.usersWithSquad == plan.usersWithSquad && report.missedCount == plan.missedCount
        && report.emailsSent == Sweep.CountDelivered(outcomes)
        && report.emailsSent + report.emailsFailed == |notices|
      ensures users == old(users) && watches == old(watches) && nextWatchId == old(nextWatchId) && checkins == old(checkins)
    {
      var totalUsers, usersWithSquad, missedCount, queued, batch := ScanSubjects(docs, ledger, now);
      notices := queued;
      if missedCount > 0 {
        CommitValid(users, watches, nextWatchId, ledger, docs, now);
        ledger := ledger + batch;
      } else {
        assert ledger + batch == ledger;
      }
      var emailsSent, emailsFailed := TallySends(notices, outcomes);
      report := SweepReport(totalUsers, usersWithSquad, missedCount, emailsSent, emailsFailed);
    }

    /**
     * POST /api/account/delete, behind the device middleware: the subject's
     * rows as a watcher go with their paired decrements, then the subject,
     * then the rows that target it, its check-in events and its ledger
     * entries. (A record the middleware creates for an unknown device is
     * deleted again by the same request.)
     */
    method DeleteAccount(deviceId: UserId) returns (r: Result<Deleted>)
      requires Valid()
      modifies this
      ensures Valid()
      ensures deviceId == "" ==> r == Err(DeviceIdRequired) && users == old(users) && watches == old(watches)
      ensures deviceId != "" ==>
        && r.Ok?
        && SameButCounts(users, old(users) - {deviceId})
        && watches == RowsNotTargeting(RowsNotWatchedBy(old(watches), deviceId), deviceId)
        && checkins == EventsWithout(old(checkins), deviceId)
        && ledger == EntriesNotOf(old(ledger), deviceId)
        && (forall t :: AlertKey(deviceId, t) !in ledger)
        && r.value.watchingEntriesWatcher == |WatchedBy(old(watches), deviceId)|
        && r.value.watchingEntriesTarget == |WatchersOf(RowsNotWatchedBy(old(watches), deviceId), deviceId)|
        && r.value.checkins == |old(checkins)| - |checkins|
        && r.value.alerts == |EntriesOf(old(ledger), deviceId)|
      ensures deviceId == "" ==> checkins == old(checkins) && ledger == old(ledger)
      ensures nextWatchId == old(nextWatchId)
    {
      if deviceId == "" {
        return Err(DeviceIdRequired);
      }
      var asWatcher := DropWatcherRows(deviceId);
      var d := DropSubject(deviceId);
      r := Ok(d.(watchingEntriesWatcher := asWatcher));
    }

    /**
     * The first stage of the cascade: every row in which `id` is the watcher
     * is deleted together with one floored decrement of its target.
     */
    method DropWatcherRows(id: UserId) returns (n: nat)
      requires Valid()
      modifies this
      ensures Valid()
      ensures watches == RowsNotWatchedBy(old(watches), id)
      ensures n == |WatchedBy(old(watches), id)|
      ensures SameButCounts(users, old(users))
      ensures nextWatchId == old(nextWatchId) && checkins == old(checkins) && ledger == old(ledger)
    {
      ghost var users0 := users;
      ghost var watches0 := watches;
      n := |WatchedBy(watches, id)|;
      var w := 0;
      while w < nextWatchId
        invariant w <= nextWatchId
        invariant Valid()
        invariant Unlinked(users, watches, users0, watches0, WatchedBelow(watches0, id, w))
        invariant nextWatchId == old(nextWatchId) && checkins == old(checkins) && ledger == old(ledger)
      {
        ScanWatcherRow(id, w, users0, watches0);
        w := w + 1;
      }
      RowsLeftDone(watches0, watches, id, nextWatchId);
    }

    /** One turn of the first stage's scan: row `w` goes when `id` watches through it. */
    method ScanWatcherRow(id: UserId, w: WatchId, ghost users0: map<UserId, User>, ghost watches0: map<WatchId, Watch>)
      requires Valid() && Unlinked(users, watches, users0, watches0, WatchedBelow(watches0, id, w))
      modifies this
      ensures Valid() && Unlinked(users, watches, users0, watches0, WatchedBelow(watches0, id, w + 1))
      ensures nextWatchId == old(nextWatchId) && checkins == old(checkins) && ledger == old(ledger)
    {
      WatchedBelowNext(watches0, watches, id, w);
      if w in watches && watches[w].watcherId == id {
        UnlinkNext(w, users0, watches0, WatchedBelow(watches0, id, w));
      }
    }

    /** One step of the first stage: `UnlinkWatch` with its bookkeeping. */
    method UnlinkNext(w: WatchId, ghost users0: map<UserId, User>, ghost watches0: map<WatchId, Watch>, ghost gone: set<WatchId>)
      requires Valid() && w in watches && Unlinked(users, watches, users0, watches0, gone)
      modifies this
      ensures Valid() && Unlinked(users, watches, users0, watches0, gone + {w})
      ensures watches.Keys == old(watches).Keys - {w}
      ensures nextWatchId == old(nextWatchId) && checkins == old(checkins) && ledger == old(ledger)
    {
      ghost var usersBefore := users;
      ghost var watchesBefore := watches;
      ghost var t := watches[w].targetId;
      UnlinkWatch(w);
      UnlinkedStep(users0, watches0, gone, usersBefore, watchesBefore, w, users[t].watchersCount);
    }

    /**
     * The rest of the cascade: the subject, the rows that target it, its
     * check-in events and its ledger entries, with how many of each went
     * (`watchingEntriesWatcher` is left zero here).
     */
    method DropSubject(id: UserId) returns (d: Deleted)
      requires Valid()
      modifies this
      ensures Valid()
      ensures SameButCounts(users, old(users) - {id})
      ensures watches == RowsNotTargeting(old(watches), id)
      ensures checkins == EventsWithout(old(checkins), id)
      ensures ledger == EntriesNotOf(old(ledger), id)
      ensures forall t :: AlertKey(id, t) !in ledger
      ensures d == Deleted(|WatchersOf(old(watches), id)|, 0, |old(checkins)| - |checkins|, |EntriesOf(old(ledger), id)|)
      ensures nextWatchId == old(nextWatchId)
    {
      DeleteUserValid(users, watches, nextWatchId, ledger, id);
      var watchesLeft := RowsNotTargeting(watches, id);
      var checkinsLeft := EventsWithout(checkins, id);
      var ledgerLeft := EntriesNotOf(ledger, id);
      d := Deleted(|WatchersOf(watches, id)|, 0, |checkins| - |checkinsLeft|, |EntriesOf(ledger, id)|);
      users := users - {id};
      watches := watchesLeft;
      checkins := checkinsLeft;
      ledger := ledgerLeft;
    }
  }

  /** `a` holds the records of `b`, up to their watcher counters. */
  ghost predicate SameButCounts(a: map<UserId, User>, b: map<UserId, User>) {
    a.Keys == b.Keys && forall u | u in a :: a[u] == b[u].(watchersCount := a[u].watchersCount)
  }

  /** `watches` is `watches0` without the rows `gone`. */
  ghost predicate RowsLeft(watches: map<WatchId, Watch>, watches0: map<WatchId, Watch>, gone: set<WatchId>) {
    watches.Keys == watches0.Keys - gone && forall w | w in watches :: watches[w] == watches0[w]
  }

  /** Rows `gone` have been unlinked from the state `users0`, `watches0`. */
  ghost predicate Unlinked(users: map<UserId, User>, watches: map<WatchId, Watch>, users0: map<UserId, User>, watches0: map<WatchId, Watch>, gone: set<WatchId>) {
    RowsLeft(watches, watches0, gone) && SameButCounts(users, users0)
  }

  /** Unlinking one more row, which changes one counter. */
  lemma UnlinkedStep(users0: map<UserId, User>, watches0: map<WatchId, Watch>, gone: set<WatchId>,
                     users: map<UserId, User>, watches: map<WatchId, Watch>, w: WatchId, k: int)
    requires Unlinked(users, watches, users0, watches0, gone) && w in watches && watches[w].targetId in users
    ensures var t := watches[w].targetId;
      Unlinked(users[t := users[t].(watchersCount := k)], watches - {w}, users0, watches0, gone + {w})
  {
  }

  /** The rows below `bound` in which `id` is the watcher. */
  ghost function WatchedBelow(watches: map<WatchId, Watch>, id: UserId, bound: WatchId): set<WatchId> {
    set w | w in watches && w < bound && watches[w].watcherId == id
  }

  /** The scan's next id joins the removed rows exactly when `id` watches through it. */
  lemma WatchedBelowNext(watches0: map<WatchId, Watch>, watches: map<WatchId, Watch>, id: UserId, w: WatchId)
    requires RowsLeft(watches, watches0, WatchedBelow(watches0, id, w))
    ensures WatchedBelow(watches0, id, w + 1) ==
      if w in watches && watches[w].watcherId == id then WatchedBelow(watches0, id, w) + {w} else WatchedBelow(watches0, id, w)
  {
    if w in watches0 {
      assert w in watches && watches[w] == watches0[w];
    }
  }

  lemma RowsLeftDone(watches0: map<WatchId, Watch>, watches: map<WatchId, Watch>, id: UserId, next: WatchId)
    requires forall w | w in watches0 :: w < next
    requires RowsLeft(watches, watches0, WatchedBelow(watches0, id, next))
    ensures watches == RowsNotWatchedBy(watches0, id)
  {
    assert watches.Keys == RowsNotWatchedBy(watches0, id).Keys;
  }

  /** The watch rows in which `id` is the watcher. */
  function WatchedBy(watches: map<WatchId, Watch>, id: UserId): set<WatchId> {
    set w | w in watches && watches[w].watcherId == id
  }

  /** The keys of the ledger entries of subject `id`. */
  function EntriesOf(ledger: map<string, Alert>, id: UserId): set<string> {
    set k | k in ledger && ledger[k].userId == id
  }

  /** The watch rows in which `id` is not the watcher. */
  function RowsNotWatchedBy(watches: map<WatchId, Watch>, id: UserId): (r: map<WatchId, Watch>)
    ensures r.Keys == set w | w in watches && watches[w].watcherId != id
    ensures forall w | w in r :: r[w] == watches[w]
  {
    map w | w in watches && watches[w].watcherId != id :: watches[w]
  }

  /** Subject `t`'s counter after a watch on it is added: the safe count plus one. */
  function Bumped(users: map<UserId, User>, t: UserId): (r: map<UserId, User>)
    requires t in users
    ensures r.Keys == users.Keys && r[t].watchersCount == SafeWatchersCount(users[t].watchersCount) + 1
    ensures r[t] == users[t].(watchersCount := r[t].watchersCount)
    ensures forall u | u in users && u != t :: r[u] == users[u]
  {
    users[t := users[t].(watchersCount := SafeWatchersCount(users[t].watchersCount) + 1)]
  }

  /** Subject `t`'s counter after a watch on it is removed: the safe count less one, never below zero. */
  function Dropped(users: map<UserId, User>, t: UserId): (r: map<UserId, User>)
    requires t in users
    ensures r.Keys == users.Keys && r[t].watchersCount == SafeWatchersCount(SafeWatchersCount(users[t].watchersCount) - 1)
    ensures r[t] == users[t].(watchersCount := r[t].watchersCount)
    ensures forall u | u in users && u != t :: r[u] == users[u]
  {
    users[t := users[t].(watchersCount := SafeWatchersCount(SafeWatchersCount(users[t].watchersCount) - 1))]
  }
}
