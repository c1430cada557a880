/**
 * The wellness-check bookkeeping of aliveCheck.js that does not involve the
 * language model: the fallback score, its vibe, the per-day counter with its
 * date rollover, the bounded submission list and the history slice. Dates
 * are the calendar-date strings the route compares for equality; `today` is
 * a parameter.
 */
module AliveCheck {
  import opened Wrappers

  /** MAX_DAILY_CHECKS */
  const MaxDailyChecks := 5
  /** MAX_STORED_SUBMISSIONS */
  const MaxStoredSubmissions := 45
  /** A submission carries exactly this many questions and answers. */
  const QuestionsPerCheck := 5

  /** An answer as the client sends it: a text, a number, or anything else. */
  datatype AnswerValue = Text(text: string) | Number(n: int) | OtherValue

  /** What one answer adds to the fallback score (aliveCheck.js:66-74). */
  function Contribution(v: AnswerValue): int {
    if v.Text? && v.text in {"yes", "Good", "Amazing", "Thriving"} then 8
    else if v.Text? && v.text in {"Okay", "Neutral", "Getting by"} then 3
    else if v.Number? then (v.n - 3) * 5
    else 0
  }

  /** The sum of the contributions of `answers`, accumulated front to back. */
  function Total(answers: seq<AnswerValue>): int {
    if answers == [] then 0 else Total(answers[..|answers| - 1]) + Contribution(answers[|answers| - 1])
  }

  /** A score held to the range 0 to 100. */
  function Clamp(score: int): (r: int)
    ensures 0 <= r <= 100
    ensures 0 <= score <= 100 ==> r == score
    ensures score < 0 ==> r == 0
    ensures score > 100 ==> r == 100
  {
    if score < 0 then 0 else if score > 100 then 100 else score
  }

  /**
   * calculateFallbackScore: 50 plus every answer's contribution, clamped to
   * the range 0..100.
   */
  method FallbackScore(answers: seq<AnswerValue>) returns (score: int)
    ensures score == Clamp(50 + Total(answers))
    ensures 0 <= score <= 100
  {
    score := 50;
    var i := 0;
    while i < |answers|
      invariant i <= |answers|
      invariant score == 50 + Total(answers[..i])
    {
      assert answers[..i + 1][..i] == answers[..i];
      score := score + Contribution(answers[i]);
      i := i + 1;
    }
    assert answers[..i] == answers;
    score := Clamp(score);
  }

  /** When every answer contributes the same amount, the total is that many times it. */
  lemma {:induction false} TotalUniform(answers: seq<AnswerValue>, c: int)
    requires forall i | 0 <= i < |answers| :: Contribution(answers[i]) == c
    ensures Total(answers) == |answers| * c
    decreases |answers|
  {
    if answers != [] {
      TotalUniform(answers[..|answers| - 1], c);
    }
  }

  /**
   * Five numeric answers at the top of the scale reach the ceiling, five at
   * the bottom the floor; five enthusiastic words give 90.
   */
  lemma FallbackExtremes()
    ensures Clamp(50 + Total([Number(5), Number(5), Number(5), Number(5), Number(5)])) == 100
    ensures Clamp(50 + Total([Number(1), Number(1), Number(1), Number(1), Number(1)])) == 0
    ensures Clamp(50 + Total([Text("Amazing"), Text("yes"), Text("Good"), Text("Thriving"), Text("Amazing")])) == 90
  {
    TotalUniform([Number(5), Number(5), Number(5), Number(5), Number(5)], 10);
    TotalUniform([Number(1), Number(1), Number(1), Number(1), Number(1)], -10);
    TotalUniform([Text("Amazing"), Text("yes"), Text("Good"), Text("Thriving"), Text("Amazing")], 8);
  }

  /** The four vibes of getVibeFromScore, from best to worst. */
  datatype Vibe = Thriving | Living | Surviving | Struggling {
    function Emoji(): string {
      match this
      case Thriving => "\U{1F525}"
      case Living => "\U{26A1}"
      case Surviving => "\U{1F4AA}"
      case Struggling => "\U{1F331}"
    }

    /** The vibe's place on the scale: 0 for the worst. */
    function Rank(): nat {
      match this
      case Struggling => 0
      case Surviving => 1
      case Living => 2
      case Thriving => 3
    }
  }

  /** getVibeFromScore: thresholds 80, 60 and 40, each inclusive. */
  function VibeOf(score: int): (v: Vibe)
    ensures v == Thriving <==> score >= 80
    ensures v == Living <==> 60 <= score < 80
    ensures v == Surviving <==> 40 <= score < 60
    ensures v == Struggling <==> score < 40
  {
    if score >= 80 then Thriving
    else if score >= 60 then Living
    else if score >= 40 then Surviving
    else Struggling
  }

  /** A higher score never gives a worse vibe. */
  lemma VibeMonotone(a: int, b: int)
    requires a <= b
    ensures VibeOf(a).Rank() <= VibeOf(b).Rank()
  {
  }

  /** One stored submission (the model's wording and the quote are not modelled). */
  datatype Submission = Submission(id: string, date: string, questions: seq<string>, answers: seq<AnswerValue>, score: int, setIndex: int)

  /** A device's document in the `aliveChecks` collection. */
  datatype CheckRecord = CheckRecord(
    totalLifetimeChecks: nat,
    lastSetIndex: int,
    todayCount: nat,
    lastCheckDate: string,
    submissions: seq<Submission>)

  /**
   * The count of checks made today: the stored count when the stored date
   * is today, otherwise 0 (a new day has begun); 0 for a device without a
   * record.
   */
  function DailyCount(rec: Option<CheckRecord>, today: string): (n: nat)
    ensures rec.None? ==> n == 0
    ensures rec.Some? && rec.value.lastCheckDate != today ==> n == 0
    ensures rec.Some? && rec.value.lastCheckDate == today ==> n == rec.value.todayCount
  {
    if rec.Some? && rec.value.lastCheckDate == today then rec.value.todayCount else 0
  }

  /** The reply of GET /today-count (aliveCheck.js:766-790). */
  datatype TodayCount = TodayCount(count: nat, remaining: nat, canCheck: bool)

  function TodayCountOf(rec: Option<CheckRecord>, today: string): (t: TodayCount)
    ensures t.count == DailyCount(rec, today)
    ensures t.remaining == if t.count >= MaxDailyChecks then 0 else MaxDailyChecks - t.count
    ensures t.canCheck <==> t.count < MaxDailyChecks
  {
    var count := DailyCount(rec, today);
    TodayCount(count, if MaxDailyChecks - count < 0 then 0 else MaxDailyChecks - count, count < MaxDailyChecks)
  }

  datatype Refusal = DeviceIdRequired | DailyLimitReached(used: nat) | InvalidSubmission

  datatype Result<T> = Ok(value: T) | Err(refusal: Refusal)

  /**
   * checkDailyLimit (aliveCheck.js:387-424): refuse once today's count has
   * reached the limit, reporting how many were used; otherwise pass today's
   * count on to the route.
   */
  function LimitCheck(rec: Option<CheckRecord>, today: string): (r: Result<nat>)
    ensures r.Err? <==> DailyCount(rec, today) >= MaxDailyChecks
    ensures r.Err? ==> r == Err(DailyLimitReached(DailyCount(rec, today)))
    ensures r.Ok? ==> r.value == DailyCount(rec, today)
  {
    var count := DailyCount(rec, today);
    if count >= MaxDailyChecks then Err(DailyLimitReached(count)) else Ok(count)
  }

  /** The today-count route and the limit middleware agree on who may check. */
  lemma CanCheckIffLimitPasses(rec: Option<CheckRecord>, today: string)
    ensures TodayCountOf(rec, today).canCheck <==> LimitCheck(rec, today).Ok?
  {
  }

  /**
   * The submission put at the front, then the list cut to its first 45: the new
   * submission comes first and is followed by the newest of the earlier ones
   * in their order.
   */
  function PushSubmission(submissions: seq<Submission>, s: Submission): (r: seq<Submission>)
    ensures |r| == if |submissions| + 1 > MaxStoredSubmissions then MaxStoredSubmissions else |submissions| + 1
    ensures r[0] == s
    ensures r[1..] == submissions[..|r| - 1]
  {
    var pushed := [s] + submissions;
    if |pushed| > MaxStoredSubmissions then pushed[..MaxStoredSubmissions] else pushed
  }

  /** The record after a submission (aliveCheck.js:522-553). */
  function Submitted(rec: Option<CheckRecord>, s: Submission, setIndex: int, today: string): CheckRecord {
    if rec.None? then CheckRecord(1, setIndex, 1, today, [s])
    else
      var data := rec.value;
      CheckRecord(data.totalLifetimeChecks + 1, setIndex,
                  if data.lastCheckDate == today then data.todayCount + 1 else 1,
                  today, PushSubmission(data.submissions, s))
  }

  /**
   * A submission adds exactly one to today's count, whether or not the day
   * has rolled over, dates the record today, puts the submission first,
   * keeps at most 45 and adds one lifetime check.
   */
  lemma SubmittedEffect(rec: Option<CheckRecord>, s: Submission, setIndex: int, today: string)
    ensures var after := Submitted(rec, s, setIndex, today);
      && DailyCount(Some(after), today) == DailyCount(rec, today) + 1
      && after.lastCheckDate == today
      && after.submissions[0] == s
      && |after.submissions| <= MaxStoredSubmissions
      && after.totalLifetimeChecks == (if rec.None? then 0 else rec.value.totalLifetimeChecks) + 1
      && after.lastSetIndex == setIndex
  {
  }

  /** What GET /history returns; a device without a record gets no `storedCount`. */
  datatype History = History(history: seq<Submission>, total: nat, storedCount: Option<nat>)

  /**
   * A positive `limit` keeps the newest `limit` submissions, any other (or
   * none) keeps all; `total` is the lifetime count, or, when that is zero,
   * the number returned.
   */
  function HistoryOf(rec: Option<CheckRecord>, limit: Option<int>): (h: History)
    ensures rec.None? ==> h.history == [] && h.total == 0
    ensures rec.Some? && limit.Some? && limit.value > 0 ==>
      h.history == rec.value.submissions[..if limit.value < |rec.value.submissions| then limit.value else |rec.value.submissions|]
    ensures rec.Some? && (limit.None? || limit.value <= 0) ==> h.history == rec.value.submissions
    ensures rec.None? <==> h.storedCount.None?
    ensures rec.Some? ==> h.storedCount == Some(|h.history|)
    ensures rec.Some? && rec.value.totalLifetimeChecks != 0 ==> h.total == rec.value.totalLifetimeChecks
    ensures rec.Some? && rec.value.totalLifetimeChecks == 0 ==> h.total == |h.history|
  {
    if rec.None? then History([], 0, None)
    else
      var all := rec.value.submissions;
      var kept := if limit.Some? && limit.value > 0 && limit.value < |all| then all[..limit.value] else all;
      History(kept, if rec.value.totalLifetimeChecks != 0 then rec.value.totalLifetimeChecks else |kept|, Some(|kept|))
  }

  /** The history is always a prefix of what is stored, newest first. */
  lemma HistoryIsPrefix(rec: CheckRecord, limit: Option<int>)
    ensures var h := HistoryOf(Some(rec), limit).history;
      |h| <= |rec.submissions| && h == rec.submissions[..|h|]
  {
  }

  /** A record the routes maintain: bounded list and count. */
  predicate RecordOk(rec: CheckRecord) {
    && |rec.submissions| <= MaxStoredSubmissions
    && rec.todayCount <= MaxDailyChecks
    && 1 <= |rec.submissions| <= rec.totalLifetimeChecks
  }

  /**
   * For a record the routes maintain, the history is never empty and its
   * `total` is the lifetime count, at least as large as what is returned.
   */
  lemma StoredHistory(rec: CheckRecord, limit: Option<int>)
    requires RecordOk(rec)
    ensures var h := HistoryOf(Some(rec), limit);
      && 1 <= |h.history| <= MaxStoredSubmissions
      && h.total == rec.totalLifetimeChecks >= |h.history|
  {
  }

  /** The `aliveChecks` collection, by device id. */
  class AliveChecks {
    var records: map<string, CheckRecord>

    ghost predicate Valid()
      reads this
    {
      forall d | d in records :: RecordOk(records[d])
    }

    constructor ()
      ensures Valid() && records == map[]
    {
      records := map[];
    }

    function Lookup(deviceId: string): (r: Option<CheckRecord>)
      reads this
      ensures deviceId in records ==> r == Some(records[deviceId])
      ensures deviceId !in records ==> r == None
    {
      if deviceId in records then Some(records[deviceId]) else None
    }

    /**
     * POST /submit behind requireDeviceId and checkDailyLimit: the device id,
     * the daily limit, then five questions and five answers; the score comes
     * from the model (or its fallback) and is a parameter. Replies with the
     * checks left today.
     */
    method Submit(deviceId: string, questions: Option<seq<string>>, answers: Option<seq<AnswerValue>>,
                  setIndex: int, today: string, id: string, score: int) returns (r: Result<int>)
      requires Valid()
      modifies this
      ensures Valid()
      ensures deviceId == "" ==> r == Err(DeviceIdRequired) && records == old(records)
      ensures deviceId != "" && LimitCheck(old(Lookup(deviceId)), today).Err? ==>
        r == Err(LimitCheck(old(Lookup(deviceId)), today).refusal) && records == old(records)
      ensures (deviceId != "" && LimitCheck(old(Lookup(deviceId)), today).Ok? &&
               (questions.None? || answers.None? || |questions.value| != QuestionsPerCheck || |answers.value| != QuestionsPerCheck)) ==>
        r == Err(InvalidSubmission) && records == old(records)
      ensures (deviceId != "" && LimitCheck(old(Lookup(deviceId)), today).Ok? && questions.Some? && answers.Some? &&
               |questions.value| == QuestionsPerCheck && |answers.value| == QuestionsPerCheck) ==> r.Ok?
      ensures r.Ok? ==>
        && deviceId != "" && questions.Some? && answers.Some?
        && var before := old(Lookup(deviceId));
        && records == old(records)[deviceId := Submitted(before, Submission(id, today, questions.value, answers.value, score, setIndex), setIndex, today)]
        && r.value == MaxDailyChecks - DailyCount(before, today) - 1
        && r.value == TodayCountOf(Some(records[deviceId]), today).remaining
    {
      if deviceId == "" {
        return Err(DeviceIdRequired);
      }
      var before := Lookup(deviceId);
      var gate := LimitCheck(before, today);
      if gate.Err? {
        return Err(gate.refusal);
      }
      if questions.None? || answers.None? || |questions.value| != QuestionsPerCheck || |answers.value| != QuestionsPerCheck {
        return Err(InvalidSubmission);
      }
      var s := Submission(id, today, questions.value, answers.value, score, setIndex);
      var after := Submitted(before, s, setIndex, today);
      SubmittedEffect(before, s, setIndex, today);
      records := records[deviceId := after];
      r := Ok(MaxDailyChecks - gate.value - 1);
    }

    /**
     * GET /history behind requireDeviceId: the device's history view. A
     * stored record always has a submission, so its view is never empty and
     * reports the lifetime count.
     */
    method GetHistory(deviceId: string, limit: Option<int>) returns (r: Result<History>)
      requires Valid()
      ensures r == Err(DeviceIdRequired) <==> deviceId == ""
      ensures r.Ok? ==> r.value == HistoryOf(Lookup(deviceId), limit)
      ensures r.Ok? && deviceId in records ==>
        && 1 <= |r.value.history| <= MaxStoredSubmissions
        && r.value.total == records[deviceId].totalLifetimeChecks >= |r.value.history|
    {
      if deviceId == "" {
        return Err(DeviceIdRequired);
      }
      var rec := Lookup(deviceId);
      if rec.Some? {
        StoredHistory(rec.value, limit);
      }
      r := Ok(HistoryOf(rec, limit));
    }

    /**
     * DELETE /history behind requireDeviceId: the device's record goes, so
     * its history is empty and its daily count starts again from zero.
     */
    method ClearHistory(deviceId: string) returns (r: Result<bool>)
      requires Valid()
      modifies this
      ensures Valid()
      ensures deviceId == "" ==> r == Err(DeviceIdRequired) && records == old(records)
      ensures deviceId != "" ==> r == Ok(true) && records == old(records) - {deviceId}
      ensures deviceId != "" ==> Lookup(deviceId) == None
    {
      if deviceId == "" {
        return Err(DeviceIdRequired);
      }
      records := records - {deviceId};
      r := Ok(true);
    }
  }
}
