/**
 * The question bank of the wellness check: forty fixed sets of five
 * questions, a random pick that avoids repeating the previous set, and the
 * two counting helpers.
 */
module QuestionBank {
  import opened Wrappers

  /** How a question is answered: one of some options, a number on a labelled scale, or yes/no. */
  datatype QuestionKind =
    | Choice(options: seq<string>)
    | Scale(min: int, max: int, labels: seq<string>)
    | YesNo

  /** A question of the bank: its id and how it is answered (its wording is not modelled). */
  datatype Question = Question(id: string, kind: QuestionKind)

  /** QUESTION_SETS, entry for entry. */
  const QuestionSets: seq<seq<Question>> := [
      // set 1
      [
        Question("q1_1", Choice(["Terrible", "Okay", "Amazing"])),
        Question("q1_2", Choice(["Drained", "Meh", "Buzzing"])),
        Question("q1_3", Choice(["Dreading it", "Neutral", "Excited"])),
        Question("q1_4", YesNo),
        Question("q1_5", YesNo)
      ],
      // set 2
      [
        Question("q2_1", Scale(1, 5, ["Foggy", "Crystal Clear"])),
        Question("q2_2", Scale(1, 5, ["Chill", "Overwhelmed"])),
        Question("q2_3", Choice(["Not at all", "Struggling", "Totally"])),
        Question("q2_4", YesNo),
        Question("q2_5", YesNo)
      ],
      // set 3
      [
        Question("q3_1", Choice(["Awful", "Tired", "Good", "Great"])),
        Question("q3_2", YesNo),
        Question("q3_3", Choice(["A lot", "A little", "None"])),
        Question("q3_4", Choice(["Dehydrated", "Okay", "Well hydrated"])),
        Question("q3_5", YesNo)
      ],
      // set 4
      [
        Question("q4_1", Choice(["Down", "Flat", "Neutral", "Good", "Amazing"])),
        Question("q4_2", YesNo),
        Question("q4_3", YesNo),
        Question("q4_4", Scale(1, 5, ["Alone", "Connected"])),
        Question("q4_5", YesNo)
      ],
      // set 5
      [
        Question("q5_1", YesNo),
        Question("q5_2", Choice(["Zero", "Low", "Medium", "High"])),
        Question("q5_3", YesNo),
        Question("q5_4", YesNo),
        Question("q5_5", YesNo)
      ],
      // set 6
      [
        Question("q6_1", YesNo),
        Question("q6_2", Choice(["Not at all", "A little", "Very"])),
        Question("q6_3", Scale(1, 5, ["Zero motivation", "Super motivated"])),
        Question("q6_4", YesNo),
        Question("q6_5", YesNo)
      ],
      // set 7
      [
        Question("q7_1", YesNo),
        Question("q7_2", Scale(1, 5, ["Neglecting myself", "Taking great care"])),
        Question("q7_3", YesNo),
        Question("q7_4", YesNo),
        Question("q7_5", Choice(["Too much", "Balanced", "Too little"]))
      ],
      // set 8
      [
        Question("q8_1", Choice(["Terrible", "Bad", "Okay", "Good", "Great"])),
        Question("q8_2", Choice(["Getting worse", "Same", "Getting better"])),
        Question("q8_3", YesNo),
        Question("q8_4", YesNo),
        Question("q8_5", YesNo)
      ],
      // set 9
      [
        Question("q9_1", Choice(["Forced awake", "Naturally"])),
        Question("q9_2", Choice(["Grumpy", "Neutral", "Happy"])),
        Question("q9_3", YesNo),
        Question("q9_4", Scale(1, 5, ["Exhausted", "Fully rested"])),
        Question("q9_5", YesNo)
      ],
      // set 10
      [
        Question("q10_1", Choice(["Rough", "Okay", "Good", "Amazing"])),
        Question("q10_2", YesNo),
        Question("q10_3", YesNo),
        Question("q10_4", Scale(1, 5, ["Wide awake", "Exhausted"])),
        Question("q10_5", YesNo)
      ],
      // set 11
      [
        Question("q11_1", Choice(["No appetite", "Normal", "Very hungry"])),
        Question("q11_2", YesNo),
        Question("q11_3", YesNo),
        Question("q11_4", YesNo),
        Question("q11_5", Choice(["Unhealthy", "Okay", "Healthy"]))
      ],
      // set 12
      [
        Question("q12_1", Scale(1, 5, ["Calm", "Very anxious"])),
        Question("q12_2", YesNo),
        Question("q12_3", YesNo),
        Question("q12_4", YesNo),
        Question("q12_5", YesNo)
      ],
      // set 13
      [
        Question("q13_1", YesNo),
        Question("q13_2", Choice(["Barely moved", "Some movement", "Very active"])),
        Question("q13_3", YesNo),
        Question("q13_4", Choice(["Slouched", "Okay", "Good"])),
        Question("q13_5", YesNo)
      ],
      // set 14
      [
        Question("q14_1", YesNo),
        Question("q14_2", Scale(1, 5, ["Blocked", "Flowing"])),
        Question("q14_3", YesNo),
        Question("q14_4", YesNo),
        Question("q14_5", YesNo)
      ],
      // set 15
      [
        Question("q15_1", YesNo),
        Question("q15_2", YesNo),
        Question("q15_3", Scale(1, 5, ["Not lonely", "Very lonely"])),
        Question("q15_4", YesNo),
        Question("q15_5", YesNo)
      ],
      // set 16
      [
        Question("q16_1", Choice(["Way too much", "A lot", "Moderate", "Very little"])),
        Question("q16_2", YesNo),
        Question("q16_3", YesNo),
        Question("q16_4", Choice(["Unhealthy", "Okay", "Healthy"])),
        Question("q16_5", YesNo)
      ],
      // set 17
      [
        Question("q17_1", Scale(1, 5, ["Not stressed", "Very stressed"])),
        Question("q17_2", YesNo),
        Question("q17_3", YesNo),
        Question("q17_4", YesNo),
        Question("q17_5", Choice(["Terrible", "Okay", "Good"]))
      ],
      // set 18
      [
        Question("q18_1", YesNo),
        Question("q18_2", Choice(["Can't remember", "This week", "Today"])),
        Question("q18_3", YesNo),
        Question("q18_4", YesNo),
        Question("q18_5", Scale(1, 5, ["No joy", "Very joyful"]))
      ],
      // set 19
      [
        Question("q19_1", YesNo),
        Question("q19_2", Scale(1, 5, ["Distracted", "Very present"])),
        Question("q19_3", YesNo),
        Question("q19_4", YesNo),
        Question("q19_5", YesNo)
      ],
      // set 20
      [
        Question("q20_1", YesNo),
        Question("q20_2", YesNo),
        Question("q20_3", Choice(["Bored", "Just right", "Overwhelmed"])),
        Question("q20_4", YesNo),
        Question("q20_5", YesNo)
      ],
      // set 21
      [
        Question("q21_1", Choice(["< 5 hours", "5-6 hours", "7-8 hours", "9+ hours"])),
        Question("q21_2", YesNo),
        Question("q21_3", YesNo),
        Question("q21_4", Choice(["Terrible", "Restless", "Decent", "Deep & good"])),
        Question("q21_5", YesNo)
      ],
      // set 22
      [
        Question("q22_1", YesNo),
        Question("q22_2", YesNo),
        Question("q22_3", Scale(1, 5, ["Not at all", "Very appreciative"])),
        Question("q22_4", YesNo),
        Question("q22_5", YesNo)
      ],
      // set 23
      [
        Question("q23_1", YesNo),
        Question("q23_2", YesNo),
        Question("q23_3", Choice(["Terrible", "Learning", "Good"])),
        Question("q23_4", YesNo),
        Question("q23_5", YesNo)
      ],
      // set 24
      [
        Question("q24_1", YesNo),
        Question("q24_2", YesNo),
        Question("q24_3", Scale(1, 5, ["Lost interest", "Fully engaged"])),
        Question("q24_4", YesNo),
        Question("q24_5", YesNo)
      ],
      // set 25
      [
        Question("q25_1", YesNo),
        Question("q25_2", Choice(["None", "< 30 min", "30min - 1hr", "1hr+"])),
        Question("q25_3", YesNo),
        Question("q25_4", YesNo),
        Question("q25_5", Choice(["Chaotic", "Okay", "Peaceful"]))
      ],
      // set 26
      [
        Question("q26_1", Scale(1, 5, ["Not stressed", "Very stressed"])),
        Question("q26_2", YesNo),
        Question("q26_3", YesNo),
        Question("q26_4", YesNo),
        Question("q26_5", Choice(["Struggling", "Getting by", "Stable", "Comfortable"]))
      ],
      // set 27
      [
        Question("q27_1", YesNo),
        Question("q27_2", Choice(["Toxic", "Mixed", "Healthy"])),
        Question("q27_3", YesNo),
        Question("q27_4", Scale(1, 5, ["Unsatisfied", "Very satisfied"])),
        Question("q27_5", YesNo)
      ],
      // set 28
      [
        Question("q28_1", YesNo),
        Question("q28_2", YesNo),
        Question("q28_3", Scale(1, 5, ["Not confident", "Very confident"])),
        Question("q28_4", YesNo),
        Question("q28_5", YesNo)
      ],
      // set 29
      [
        Question("q29_1", Choice(["Anxious", "Uncertain", "Hopeful", "Excited"])),
        Question("q29_2", YesNo),
        Question("q29_3", YesNo),
        Question("q29_4", Scale(1, 5, ["Pessimistic", "Very optimistic"])),
        Question("q29_5", YesNo)
      ],
      // set 30
      [
        Question("q30_1", Choice(["Poorly", "Struggling", "Managing", "Well"])),
        Question("q30_2", YesNo),
        Question("q30_3", YesNo),
        Question("q30_4", Scale(1, 5, ["Fragile", "Very strong"])),
        Question("q30_5", YesNo)
      ],
      // set 31
      [
        Question("q31_1", YesNo),
        Question("q31_2", YesNo),
        Question("q31_3", Choice(["Uncomfortable", "Neutral", "Comfortable"])),
        Question("q31_4", YesNo),
        Question("q31_5", YesNo)
      ],
      // set 32
      [
        Question("q32_1", YesNo),
        Question("q32_2", Choice(["Chaotic", "Some structure", "Very structured"])),
        Question("q32_3", YesNo),
        Question("q32_4", YesNo),
        Question("q32_5", Scale(1, 5, ["Disorganized", "Very organized"]))
      ],
      // set 33
      [
        Question("q33_1", YesNo),
        Question("q33_2", Scale(1, 5, ["Too serious", "Very playful"])),
        Question("q33_3", YesNo),
        Question("q33_4", YesNo),
        Question("q33_5", Choice(["Heavy", "Neutral", "Light"]))
      ],
      // set 34
      [
        Question("q34_1", YesNo),
        Question("q34_2", Scale(1, 5, ["None", "A lot"])),
        Question("q34_3", YesNo),
        Question("q34_4", YesNo),
        Question("q34_5", Choice(["Bad", "Okay", "Good", "Great"]))
      ],
      // set 35
      [
        Question("q35_1", YesNo),
        Question("q35_2", Scale(1, 5, ["Confused", "Very clear"])),
        Question("q35_3", YesNo),
        Question("q35_4", YesNo),
        Question("q35_5", Choice(["Foggy", "Okay", "Sharp"]))
      ],
      // set 36
      [
        Question("q36_1", YesNo),
        Question("q36_2", Scale(1, 5, ["Insecure", "Very secure"])),
        Question("q36_3", YesNo),
        Question("q36_4", YesNo),
        Question("q36_5", Choice(["Unstable", "Somewhat stable", "Very stable"]))
      ],
      // set 37
      [
        Question("q37_1", YesNo),
        Question("q37_2", YesNo),
        Question("q37_3", Scale(1, 5, ["Silent", "Very vocal"])),
        Question("q37_4", YesNo),
        Question("q37_5", YesNo)
      ],
      // set 38
      [
        Question("q38_1", YesNo),
        Question("q38_2", Scale(1, 5, ["Unproductive", "Very accomplished"])),
        Question("q38_3", YesNo),
        Question("q38_4", YesNo),
        Question("q38_5", YesNo)
      ],
      // set 39
      [
        Question("q39_1", YesNo),
        Question("q39_2", YesNo),
        Question("q39_3", Choice(["Very harsh", "Neutral", "Very kind"])),
        Question("q39_4", YesNo),
        Question("q39_5", Scale(1, 5, ["Cold", "Very compassionate"]))
      ],
      // set 40
      [
        Question("q40_1", Scale(1, 5, ["Unsatisfied", "Very satisfied"])),
        Question("q40_2", YesNo),
        Question("q40_3", YesNo),
        Question("q40_4", YesNo),
        Question("q40_5", Choice(["Barely existing", "Getting by", "Living", "Thriving"]))
      ]
    ]

  /** The number of questions in every set. */
  const SetSize := 5

  /** A question the client can render: a choice among at least two options, or a 1..5 scale with a label at each end. */
  predicate WellFormed(q: Question) {
    match q.kind
    case Choice(options) => |options| >= 2
    case Scale(lo, hi, labels) => lo == 1 && hi == 5 && |labels| == 2
    case YesNo => true
  }

  /** The bank holds forty sets of five questions. */
  lemma BankShape()
    ensures |QuestionSets| == 40
    ensures forall i | 0 <= i < |QuestionSets| :: |QuestionSets[i]| == SetSize
  {
  }

  /** Every question of `questions` is well formed. */
  predicate AllWellFormed(questions: seq<Question>) {
    forall j | 0 <= j < |questions| :: WellFormed(questions[j])
  }

  /** The sets from `lo` up to `hi` are well formed. */
  predicate SetsWellFormed(lo: int, hi: int)
    requires 0 <= lo <= hi <= |QuestionSets|
  {
    forall i | lo <= i < hi :: AllWellFormed(QuestionSets[i])
  }

  lemma FirstQuarterWellFormed()
    ensures |QuestionSets| == 40 && SetsWellFormed(0, 10)
  {
  }

  lemma SecondQuarterWellFormed()
    ensures |QuestionSets| == 40 && SetsWellFormed(10, 20)
  {
  }

  lemma ThirdQuarterWellFormed()
    ensures |QuestionSets| == 40 && SetsWellFormed(20, 30)
  {
  }

  lemma FourthQuarterWellFormed()
    ensures |QuestionSets| == 40 && SetsWellFormed(30, 40)
  {
  }

  /** Every question of the bank is well formed. */
  lemma BankWellFormed()
    ensures forall i | 0 <= i < |QuestionSets| :: AllWellFormed(QuestionSets[i])
  {
    FirstQuarterWellFormed();
    SecondQuarterWellFormed();
    ThirdQuarterWellFormed();
    FourthQuarterWellFormed();
  }

  /** getTotalSets */
  function TotalSets(): (n: nat)
    ensures n == |QuestionSets|
  {
    |QuestionSets|
  }

  /** The sizes of `sets`, summed front to back, starting from 0. */
  function SumSizes(sets: seq<seq<Question>>): nat {
    if sets == [] then 0 else SumSizes(sets[..|sets| - 1]) + |sets[|sets| - 1]|
  }

  /** getTotalQuestions */
  function TotalQuestions(): nat {
    SumSizes(QuestionSets)
  }

  /** Sets of one size hold that size times their number of questions. */
  lemma {:induction false} SumSizesUniform(sets: seq<seq<Question>>, k: nat)
    requires forall i | 0 <= i < |sets| :: |sets[i]| == k
    ensures SumSizes(sets) == k * |sets|
    decreases |sets|
  {
    if sets != [] {
      SumSizesUniform(sets[..|sets| - 1], k);
    }
  }

  /** The bank holds five questions per set, two hundred in all. */
  lemma TotalQuestionsCount()
    ensures TotalQuestions() == SetSize * TotalSets()
    ensures TotalQuestions() == 200
  {
    BankShape();
    SumSizesUniform(QuestionSets, SetSize);
  }

  /** The index a random draw `r` in [0, 1) selects from a bank of `n` sets: the floor of `r * n`. */
  function IndexOf(r: real, n: nat): (i: int)
    requires 0.0 <= r < 1.0
    ensures n > 0 ==> 0 <= i < n
  {
    assert n > 0 ==> r * n as real < n as real by {
      if n > 0 {
        assert (1.0 - r) * n as real > 0.0;
      }
    }
    (r * n as real).Floor
  }

  /** Every draw is a value the platform's random source may return: a real in [0, 1). */
  predicate Draws(draws: seq<real>) {
    forall k | 0 <= k < |draws| :: 0.0 <= draws[k] < 1.0
  }

  /** The loop's exit test: an index other than the last one, or a bank of a single set. */
  predicate Accepts(i: int, lastSetIndex: Option<int>, n: nat) {
    !(lastSetIndex.Some? && i == lastSetIndex.value && n > 1)
  }

  /** Some draw in `draws` ends the loop. */
  predicate Ends(draws: seq<real>, lastSetIndex: Option<int>, n: nat)
    requires Draws(draws)
  {
    exists k | 0 <= k < |draws| :: Accepts(IndexOf(draws[k], n), lastSetIndex, n)
  }

  /** The index the loop settles on in a bank of `n` sets: that of the first draw it accepts. */
  function Pick(draws: seq<real>, lastSetIndex: Option<int>, n: nat): (i: int)
    requires Draws(draws) && Ends(draws, lastSetIndex, n)
    ensures n > 0 ==> 0 <= i < n
    ensures Accepts(i, lastSetIndex, n)
  {
    var i := IndexOf(draws[0], n);
    if Accepts(i, lastSetIndex, n) then i
    else
      assert Draws(draws[1..]);
      assert Ends(draws[1..], lastSetIndex, n) by {
        var k :| 0 <= k < |draws| && Accepts(IndexOf(draws[k], n), lastSetIndex, n);
        assert k != 0 && draws[1..][k - 1] == draws[k];
      }
      Pick(draws[1..], lastSetIndex, n)
  }

  /** With more than one set the pick never repeats the previous one. */
  lemma PickAvoidsLast(draws: seq<real>, last: int, n: nat)
    requires n > 1 && Draws(draws) && Ends(draws, Some(last), n)
    ensures Pick(draws, Some(last), n) != last
  {
  }

  /**
   * Without a previous set, or with a bank of one set, the first draw is
   * taken; a bank of one set always gives index 0, even when it was the last.
   */
  lemma PickFirstDraw(draws: seq<real>, lastSetIndex: Option<int>, n: nat)
    requires Draws(draws) && Ends(draws, lastSetIndex, n)
    requires lastSetIndex.None? || n <= 1
    ensures Pick(draws, lastSetIndex, n) == IndexOf(draws[0], n)
    ensures n == 1 ==> Pick(draws, lastSetIndex, n) == 0
  {
  }

  /** The pick is the first accepted draw: every earlier draw hit the previous set. */
  lemma {:induction false} PickIsFirstAccepted(draws: seq<real>, lastSetIndex: Option<int>, n: nat)
    requires Draws(draws) && Ends(draws, lastSetIndex, n)
    ensures exists k | 0 <= k < |draws| ::
      && Pick(draws, lastSetIndex, n) == IndexOf(draws[k], n)
      && forall j | 0 <= j < k :: lastSetIndex.Some? && IndexOf(draws[j], n) == lastSetIndex.value
  {
    if !Accepts(IndexOf(draws[0], n), lastSetIndex, n) {
      var rest := draws[1..];
      assert Draws(rest);
      assert Ends(rest, lastSetIndex, n) by {
        var k :| 0 <= k < |draws| && Accepts(IndexOf(draws[k], n), lastSetIndex, n);
        assert k != 0 && rest[k - 1] == draws[k];
      }
      PickIsFirstAccepted(rest, lastSetIndex, n);
      var k :| 0 <= k < |rest| && Pick(rest, lastSetIndex, n) == IndexOf(rest[k], n)
        && forall j | 0 <= j < k :: lastSetIndex.Some? && IndexOf(rest[j], n) == lastSetIndex.value;
      assert rest[k] == draws[k + 1];
      forall j | 0 <= j < k + 1
        ensures lastSetIndex.Some? && IndexOf(draws[j], n) == lastSetIndex.value
      {
        if j > 0 {
          assert draws[j] == rest[j - 1];
        }
      }
    }
  }

  /**
   * getRandomQuestionSet: draw until the index differs from `lastSetIndex`
   * (`null` is `None`); `draws` are the successive values of
   * `Math.random()`, among which one ends the loop.
   */
  method RandomQuestionSet(lastSetIndex: Option<int>, draws: seq<real>) returns (setIndex: int, questions: seq<Question>)
    requires Draws(draws) && Ends(draws, lastSetIndex, |QuestionSets|)
    ensures setIndex == Pick(draws, lastSetIndex, |QuestionSets|)
    ensures 0 <= setIndex < |QuestionSets| && questions == QuestionSets[setIndex]
    ensures |questions| == SetSize
    ensures lastSetIndex.Some? ==> setIndex != lastSetIndex.value
  {
    BankShape();
    var n := 0;
    setIndex := IndexOf(draws[n], |QuestionSets|);
    while lastSetIndex.Some? && setIndex == lastSetIndex.value && |QuestionSets| > 1
      invariant 0 <= n < |draws| && setIndex == IndexOf(draws[n], |QuestionSets|)
      invariant Draws(draws[n..]) && Ends(draws[n..], lastSetIndex, |QuestionSets|)
      invariant Pick(draws[n..], lastSetIndex, |QuestionSets|) == Pick(draws, lastSetIndex, |QuestionSets|)
      decreases |draws| - n
    {
      assert draws[n..][1..] == draws[n + 1..];
      n := n + 1;
      setIndex := IndexOf(draws[n], |QuestionSets|);
    }
    questions := QuestionSets[setIndex];
  }
}
