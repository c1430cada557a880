/**
 * The documents of the store: subjects (`users`), the squad members inside a
 * subject, watch relationships (`watching`), check-in events (`checkins`) and
 * missed-check-in alerts (`missedCheckInAlerts`), with the failures the
 * handlers report and the per-subject rules that do not touch the store.
 */
module Records {
  import opened Wrappers
  import Liveness
  import Text

  type UserId = string

  const MaxSquadMembers := 5
  const MinCheckInFrequency := 1
  const MaxCheckInFrequency := 30

  datatype Member = Member(id: string, email: string, addedAt: int)

  datatype User = User(
    displayName: string,
    code: Option<string>,
    squad: seq<Member>,
    checkInFrequency: int,
    streak: nat,
    totalCheckIns: nat,
    lastCheckIn: Option<int>,
    watchersCount: int)

  datatype Watch = Watch(watcherId: UserId, targetId: UserId, targetCode: string, customName: string)

  datatype CheckInEvent = CheckInEvent(userId: UserId, checkedInAt: int, streak: nat, totalCheckIns: nat)

  datatype Alert = Alert(
    alertKey: string,
    userId: UserId,
    userName: string,
    lastCheckIn: int,
    notified: seq<string>,
    overdueMs: int,
    checkInFrequency: int)

  /** Why a handler refused; each is answered with an error status and changes nothing. */
  datatype Failure =
    | DeviceIdRequired
    | EmailRequired
    | SquadFull
    | EmailAlreadyInSquad
    | InvalidEmailFormat
    | MemberNotFound
    | CodeRequired
    | CodeWrongLength
    | CodeNotFound
    | AlreadyWatching
    | WatchNotFound
    | NotWatcher
    | CodeGenerationFailed

  datatype Result<T> = Ok(value: T) | Err(failure: Failure)

  /** The record getUserByDeviceId creates for an unknown device. */
  function NewUser(): (u: User)
    ensures u.squad == [] && u.lastCheckIn == None && u.watchersCount == 0
    ensures u.streak == 0 && u.totalCheckIns == 0 && u.checkInFrequency == 1
    ensures u.displayName == "User" && u.code == None
  {
    User("User", None, [], 1, 0, 0, None, 0)
  }

  /** safeWatchersCount: a stored count read back, never negative. */
  function SafeWatchersCount(n: int): (r: nat)
    ensures n >= 0 ==> r == n
    ensures n < 0 ==> r == 0
  {
    if n < 0 then 0 else n
  }

  /**
   * The subject after a check-in at `now` (server.js:761-783): the streak
   * rule applied, one more lifetime check-in, `lastCheckIn` set to `now`,
   * everything else as it was.
   */
  function RecordCheckIn(u: User, now: int): (v: User)
    ensures v.totalCheckIns == u.totalCheckIns + 1
    ensures v.lastCheckIn == Some(now)
    ensures u.lastCheckIn.None? ==> v.streak == 1
    ensures u.lastCheckIn.Some? && now - u.lastCheckIn.value <= Liveness.GraceMs(u.checkInFrequency) ==> v.streak == u.streak + 1
    ensures u.lastCheckIn.Some? && now - u.lastCheckIn.value > Liveness.GraceMs(u.checkInFrequency) ==> v.streak == 1
    ensures v == u.(streak := v.streak, totalCheckIns := v.totalCheckIns, lastCheckIn := v.lastCheckIn)
  {
    u.(streak := Liveness.NextStreak(u.lastCheckIn, u.streak, u.checkInFrequency, now),
       totalCheckIns := u.totalCheckIns + 1,
       lastCheckIn := Some(now))
  }

  /**
   * Consecutive check-ins each within the grace window of the previous one
   * raise the streak by one each time; the lifetime total counts every one.
   */
  lemma {:induction false} StreakOfOnTimeRun(u: User, times: seq<int>)
    requires u.lastCheckIn.Some? && |times| > 0
    requires times[0] - u.lastCheckIn.value <= Liveness.GraceMs(u.checkInFrequency)
    requires forall i | 0 < i < |times| :: times[i] - times[i - 1] <= Liveness.GraceMs(u.checkInFrequency)
    ensures CheckInAll(u, times).streak == u.streak + |times|
    ensures CheckInAll(u, times).totalCheckIns == u.totalCheckIns + |times|
    ensures CheckInAll(u, times).lastCheckIn == Some(times[|times| - 1])
  {
    if |times| > 1 {
      var init := times[..|times| - 1];
      StreakOfOnTimeRun(u, init);
      assert times[|times| - 1] - init[|init| - 1] <= Liveness.GraceMs(u.checkInFrequency);
    }
  }

  /** The subject after checking in at each of `times` in turn. */
  function CheckInAll(u: User, times: seq<int>): (v: User)
    ensures v.checkInFrequency == u.checkInFrequency && v.squad == u.squad
    ensures times != [] ==> v.lastCheckIn == Some(times[|times| - 1])
  {
    if times == [] then u else RecordCheckIn(CheckInAll(u, times[..|times| - 1]), times[|times| - 1])
  }

  /** A stored member: its address is in normal form and well-formed. */
  predicate MemberOk(m: Member) {
    Text.NormalizeEmail(m.email) == m.email && Text.ValidEmail(m.email)
  }

  ghost predicate MembersOk(squad: seq<Member>) {
    squad == [] || (MembersOk(squad[..|squad| - 1]) && MemberOk(squad[|squad| - 1]))
  }

  predicate HasEmail(squad: seq<Member>, email: string) {
    exists i | 0 <= i < |squad| :: squad[i].email == email
  }

  /** Each member's address differs from those of the members before it. */
  ghost predicate DistinctEmails(squad: seq<Member>) {
    squad == [] || (DistinctEmails(squad[..|squad| - 1]) && !HasEmail(squad[..|squad| - 1], squad[|squad| - 1].email))
  }

  /**
   * Squad members are at most five, stored in normal form, well-formed, with
   * distinct addresses.
   */
  ghost predicate SquadValid(squad: seq<Member>) {
    |squad| <= MaxSquadMembers && MembersOk(squad) && DistinctEmails(squad)
  }

  /** Distinct addresses, stated pairwise. */
  lemma {:induction false} DistinctEmailsPairwise(squad: seq<Member>)
    requires DistinctEmails(squad)
    ensures forall i, j | 0 <= i < j < |squad| :: squad[i].email != squad[j].email
  {
    if squad != [] {
      var init := squad[..|squad| - 1];
      DistinctEmailsPairwise(init);
      forall i, j | 0 <= i < j < |squad| ensures squad[i].email != squad[j].email {
        if j < |init| {
          assert squad[i] == init[i] && squad[j] == init[j];
        } else {
          assert squad[i] == init[i];
        }
      }
    }
  }

  /** The squad with every member carrying `id` taken out, order kept. */
  function WithoutMember(squad: seq<Member>, id: string): (r: seq<Member>)
    ensures |r| <= |squad|
    ensures forall i | 0 <= i < |r| :: r[i].id != id
    ensures |r| == |squad| <==> forall i | 0 <= i < |squad| :: squad[i].id != id
  {
    if squad == [] then []
    else if squad[|squad| - 1].id == id then WithoutMember(squad[..|squad| - 1], id)
    else WithoutMember(squad[..|squad| - 1], id) + [squad[|squad| - 1]]
  }

  /** The members kept are exactly those whose id is not `id`. */
  lemma {:induction false} WithoutMemberKeeps(squad: seq<Member>, id: string)
    ensures forall m :: m in WithoutMember(squad, id) <==> m in squad && m.id != id
  {
    if squad != [] {
      var init, last := squad[..|squad| - 1], squad[|squad| - 1];
      WithoutMemberKeeps(init, id);
      assert squad == init + [last];
    }
  }

  /** A squad without a member `id` is kept whole. */
  lemma {:induction false} WithoutAbsentMember(squad: seq<Member>, id: string)
    requires forall i | 0 <= i < |squad| :: squad[i].id != id
    ensures WithoutMember(squad, id) == squad
  {
    if squad != [] {
      var init := squad[..|squad| - 1];
      assert forall i | 0 <= i < |init| :: init[i] == squad[i];
      WithoutAbsentMember(init, id);
      assert squad == init + [squad[|squad| - 1]];
    }
  }

  /**
   * Filtering is taken piecewise: the survivors of `a + b` are those of `a`
   * followed by those of `b`, so the kept members stay in squad order.
   */
  lemma {:induction false} WithoutMemberAppend(a: seq<Member>, b: seq<Member>, id: string)
    ensures WithoutMember(a + b, id) == WithoutMember(a, id) + WithoutMember(b, id)
  {
    if b == [] {
      assert a + b == a;
    } else {
      var b', last := b[..|b| - 1], b[|b| - 1];
      var c := a + b;
      assert c[..|c| - 1] == a + b' && c[|c| - 1] == last;
      WithoutMemberAppend(a, b', id);
      var tail := if last.id == id then [] else [last];
      assert WithoutMember(c, id) == WithoutMember(a + b', id) + tail;
      assert WithoutMember(b, id) == WithoutMember(b', id) + tail;
      assert WithoutMember(a, id) + WithoutMember(b', id) + tail == WithoutMember(a, id) + (WithoutMember(b', id) + tail);
    }
  }

  /** Filtering introduces no address. */
  lemma {:induction false} WithoutMemberEmails(squad: seq<Member>, id: string, email: string)
    ensures HasEmail(WithoutMember(squad, id), email) ==> HasEmail(squad, email)
  {
    if squad != [] {
      var init := squad[..|squad| - 1];
      WithoutMemberEmails(init, id, email);
      var r := WithoutMember(squad, id);
      if HasEmail(r, email) {
        var k :| 0 <= k < |r| && r[k].email == email;
        if k < |WithoutMember(init, id)| {
          assert r[k] == WithoutMember(init, id)[k];
          var j :| 0 <= j < |init| && init[j].email == email;
          assert squad[j] == init[j];
        }
      }
    }
  }

  /** Removing members keeps a valid squad valid. */
  lemma {:induction false} WithoutMemberValid(squad: seq<Member>, id: string)
    requires SquadValid(squad)
    ensures SquadValid(WithoutMember(squad, id))
  {
    if squad != [] {
      var init := squad[..|squad| - 1];
      var last := squad[|squad| - 1];
      WithoutMemberValid(init, id);
      var rest := WithoutMember(init, id);
      if last.id != id {
        WithoutMemberEmails(init, id, last.email);
        assert (rest + [last])[..|rest|] == rest;
      }
    }
  }

  /**
   * The squad after adding `email` (server.js:871-905): refused, in this
   * order, for a missing address, a full squad, an address already present
   * after lower-casing and trimming, and a malformed address; otherwise the
   * normalised address is appended as one new member.
   */
  function AddMember(squad: seq<Member>, email: string, memberId: string, addedAt: int): (r: Result<seq<Member>>)
    ensures r == Err(EmailRequired) <==> email == ""
    ensures r == Err(SquadFull) <==> email != "" && |squad| >= MaxSquadMembers
    ensures r == Err(EmailAlreadyInSquad) <==>
      email != "" && |squad| < MaxSquadMembers && HasEmail(squad, Text.NormalizeEmail(email))
    ensures r == Err(InvalidEmailFormat) <==>
      email != "" && |squad| < MaxSquadMembers && !HasEmail(squad, Text.NormalizeEmail(email)) && !Text.ValidEmail(Text.NormalizeEmail(email))
    ensures r.Ok? ==> |r.value| == |squad| + 1 <= MaxSquadMembers && r.value[..|squad|] == squad
    ensures r.Ok? ==> r.value[|squad|] == Member(memberId, Text.NormalizeEmail(email), addedAt)
    ensures r.Ok? <==>
      email != "" && |squad| < MaxSquadMembers && !HasEmail(squad, Text.NormalizeEmail(email)) && Text.ValidEmail(Text.NormalizeEmail(email))
  {
    if email == "" then Err(EmailRequired)
    else if |squad| >= MaxSquadMembers then Err(SquadFull)
    else
      var e := Text.NormalizeEmail(email);
      if HasEmail(squad, e) then Err(EmailAlreadyInSquad)
      else if !Text.ValidEmail(e) then Err(InvalidEmailFormat)
      else Ok(squad + [Member(memberId, e, addedAt)])
  }

  /** A successful addition keeps a valid squad valid: at most five, normalised, well-formed, distinct. */
  lemma AddMemberValid(squad: seq<Member>, email: string, memberId: string, addedAt: int)
    requires SquadValid(squad)
    ensures AddMember(squad, email, memberId, addedAt).Ok? ==> SquadValid(AddMember(squad, email, memberId, addedAt).value)
  {
    var r := AddMember(squad, email, memberId, addedAt);
    if r.Ok? {
      Text.NormalizeEmailIdempotent(email);
      assert r.value[..|squad|] == squad;
    }
  }

  /**
   * The squad after removing member `id` (server.js:963-970): every member
   * with that id is dropped; refused when there is none.
   */
  function RemoveMember(squad: seq<Member>, id: string): (r: Result<seq<Member>>)
    ensures r == Err(MemberNotFound) <==> forall i | 0 <= i < |squad| :: squad[i].id != id
    ensures r.Err? ==> r == Err(MemberNotFound)
    ensures r.Ok? ==> |r.value| < |squad| && forall i | 0 <= i < |r.value| :: r.value[i].id != id
    ensures r.Ok? ==> forall m :: m in r.value <==> m in squad && m.id != id
    ensures r.Ok? ==> r.value == WithoutMember(squad, id)
  {
    WithoutMemberKeeps(squad, id);
    var kept := WithoutMember(squad, id);
    if |kept| == |squad| then Err(MemberNotFound) else Ok(kept)
  }

  /** The check-in events of every subject but `id`, in their order. */
  function EventsWithout(events: seq<CheckInEvent>, id: UserId): (r: seq<CheckInEvent>)
    ensures |r| <= |events|
    ensures forall e | e in r :: e in events && e.userId != id
    ensures forall e | e in events && e.userId != id :: e in r
  {
    if events == [] then []
    else if events[|events| - 1].userId == id then EventsWithout(events[..|events| - 1], id)
    else EventsWithout(events[..|events| - 1], id) + [events[|events| - 1]]
  }
}
