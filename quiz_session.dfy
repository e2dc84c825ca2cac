/** The random-quiz session: the cursor, score, answered flag, selected option,
    answer history and shuffled copy of the bank that the quiz page keeps in
    its session store, and the three transitions the page's buttons perform. */
module QuizSession {
  import opened QuizBank
  import Shuffle

  /** The sum of a history, as Python's `sum` computes it. */
  function Sum(history: seq<Bit>): nat {
    if history == [] then 0 else Sum(history[..|history| - 1]) + history[|history| - 1]
  }

  /** A history of 0/1 entries sums to at most its length. */
  lemma {:induction false} SumBounded(history: seq<Bit>)
    ensures Sum(history) <= |history|
  {
    if history != [] {
      SumBounded(history[..|history| - 1]);
    }
  }

  /** The history sums to its length exactly when every answer was correct. */
  lemma {:induction false} SumIsLengthIffAllCorrect(history: seq<Bit>)
    ensures Sum(history) == |history| <==> forall k :: 0 <= k < |history| ==> history[k] == 1
  {
    if history != [] {
      var front := history[..|history| - 1];
      SumIsLengthIffAllCorrect(front);
      SumBounded(front);
      if Sum(history) == |history| {
        forall k | 0 <= k < |history|
          ensures history[k] == 1
        {
          if k < |front| { assert history[k] == front[k]; }
        }
      } else {
        assert !(forall k :: 0 <= k < |front| ==> front[k] == 1) || history[|history| - 1] == 0;
        if !(forall k :: 0 <= k < |front| ==> front[k] == 1) {
          var k :| 0 <= k < |front| && front[k] != 1;
          assert history[k] != 1;
        }
      }
    }
  }

  /** The counts the page shows: correct answers out of answered questions
      (sidebar), or out of the bank size (result page). */
  datatype Tally = Tally(correct: nat, total: nat)

  class Session {
    /** The bank the session draws from; the shuffle copies it and never changes it. */
    const bank: seq<Question>
    var shuffled: seq<Question>
    var idx: nat
    var score: nat
    var answered: bool
    var selected: Option<nat>
    var history: seq<Bit>

    /** The counting invariants every transition keeps. */
    ghost predicate Valid()
      reads this
    {
      && ValidBank(bank)
      && |shuffled| == |bank|
      && multiset(shuffled) == multiset(bank)
      && idx <= |shuffled|
      && score == Sum(history)
      && |history| == idx + (if answered then 1 else 0)
      && (answered ==> idx < |shuffled|)
      && (!answered ==> selected == None)
      && (answered ==> selected.Some? && selected.value < |shuffled[idx].options|
                       && history[idx] == Points(shuffled[idx], selected.value))
    }

    /** Session set-up: a freshly shuffled copy of the bank and every counter cleared. */
    constructor (bank: seq<Question>, randBelow: nat -> nat)
      requires ValidBank(bank)
      ensures Valid()
      ensures this.bank == bank
      ensures |shuffled| == |bank| && multiset(shuffled) == multiset(bank)
      ensures idx == 0 && score == 0 && !answered && selected == None && history == []
    {
      var s := Shuffle.ShuffledCopy(bank, randBelow);
      this.bank := bank;
      shuffled := s;
      idx := 0;
      score := 0;
      answered := false;
      selected := None;
      history := [];
    }

    /** The completion test of the quiz page. */
    function IsComplete(): (done: bool)
      reads this
      requires Valid()
      ensures done <==> idx == |shuffled|
      ensures done ==> !answered && |history| == |bank|
    {
      idx >= |shuffled|
    }

    /** The question on screen while the quiz is in progress: always a valid
        question of the bank, so `Label` is defined for each of its options. */
    function CurrentQuestion(): (q: Question)
      reads this
      requires Valid() && idx < |shuffled|
      ensures q in bank
      ensures ValidQuestion(q)
    {
      assert shuffled[idx] in multiset(bank);
      PermutationKeepsValid(bank, shuffled);
      shuffled[idx]
    }

    /** The question number shown above the question: between 1 and the bank size. */
    function QuestionNumber(): (n: nat)
      reads this
      requires Valid() && idx < |shuffled|
      ensures 1 <= n <= |bank|
      ensures n == (if answered then |history| else |history| + 1)
    {
      idx + 1
    }

    /** The sidebar's tally, shown once at least one answer was given: correct
        answers out of answers given. */
    function SidebarTally(): (t: Tally)
      reads this
      requires Valid() && history != []
      ensures t.correct == score && t.total == idx + (if answered then 1 else 0)
      ensures 1 <= t.total && t.correct <= t.total
    {
      SumBounded(history);
      Tally(Sum(history), |history|)
    }

    /** The result page's tally: the score out of the bank size, the whole
        history being in by then. */
    function FinalTally(): (t: Tally)
      reads this
      requires Valid() && IsComplete()
      ensures t.total == |bank| == |history|
      ensures t.correct == score <= t.total
      ensures t.correct == t.total <==> forall k :: 0 <= k < |history| ==> history[k] == 1
    {
      SumBounded(history);
      SumIsLengthIffAllCorrect(history);
      Tally(score, |shuffled|)
    }

    /** The reveal screen of the answered question: the current question's
        right option is marked as the answer, and a wrong choice is marked,
        on the selected option, exactly when the recorded history entry is 0. */
    function Reveal(): (marks: seq<Mark>)
      reads this
      requires Valid() && answered
      ensures |marks| == |shuffled[idx].options|
      ensures ValidQuestion(shuffled[idx]) && marks[shuffled[idx].correct] == RightAnswer
      ensures WrongChoice in marks <==> history[idx] == 0
      ensures history[idx] == 0 ==> marks[selected.value] == WrongChoice
    {
      RevealAgreesWithPoints(shuffled[idx], selected.value);
      PermutationKeepsValid(bank, shuffled);
      RevealMarks(shuffled[idx], selected)
    }

    /** Clicking option `i` of the current, not yet answered question. */
    method Answer(i: nat)
      requires Valid() && idx < |shuffled| && !answered && i < |shuffled[idx].options|
      modifies this
      ensures Valid()
      ensures selected == Some(i) && answered
      ensures score == old(score) + Points(old(shuffled[idx]), i)
      ensures history == old(history) + [Points(old(shuffled[idx]), i)]
      ensures idx == old(idx) && shuffled == old(shuffled)
    {
      var q := shuffled[idx];
      selected := Some(i);
      answered := true;
      if i == q.correct {
        score := score + 1;
      }
      history := history + [if i == q.correct then 1 else 0];
      assert history[..|history| - 1] == old(history);
    }

    /** Clicking "next" on the reveal screen. */
    method Next()
      requires Valid() && idx < |shuffled| && answered
      modifies this
      ensures Valid()
      ensures idx == old(idx) + 1 && !answered && selected == None
      ensures score == old(score) && history == old(history) && shuffled == old(shuffled)
    {
      idx := idx + 1;
      answered := false;
      selected := None;
    }

    /** Clicking "restart" on the result page: a new shuffle and every counter cleared. */
    method Restart(randBelow: nat -> nat)
      requires Valid() && idx >= |shuffled|
      modifies this
      ensures Valid()
      ensures |shuffled| == |bank| && multiset(shuffled) == multiset(bank)
      ensures idx == 0 && score == 0 && !answered && selected == None && history == []
    {
      var s := Shuffle.ShuffledCopy(bank, randBelow);
      shuffled := s;
      idx := 0;
      score := 0;
      answered := false;
      selected := None;
      history := [];
    }
  }

  /** The session the quiz page sets up: over the shipped bank of ten questions. */
  method NewQuizSession(randBelow: nat -> nat) returns (s: Session)
    ensures fresh(s) && s.Valid() && s.bank == QuizQuestions()
    ensures |s.shuffled| == 10 && multiset(s.shuffled) == multiset(QuizQuestions())
    ensures s.idx == 0 && s.score == 0 && !s.answered && s.selected == None && s.history == []
  {
    QuizQuestionsValid();
    s := new Session(QuizQuestions(), randBelow);
  }
}
