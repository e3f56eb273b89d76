/**
  The quiz page as a state machine: the index of the current question, the answers
  recorded so far, the answer being edited, the round-break flag, and the list handed to
  submission after the last question. Next records the edited answer (dropping any
  earlier answer to the same question and appending the new one), then advances or
  submits; Previous steps back; continuing from a round break clears the flag.
*/
module Quiz {
  import opened Wrappers
  import opened Answers

  datatype QuestionType = MultipleChoice | Scale | MultiSelect | YesNo

  /** What the page needs of a question: its id and its type. */
  datatype Question = Question(id: string, kind: QuestionType)

  // ---------------------------------------------------------------------------------
  // Rounds

  /** `getRoundInfo().round` for the question at `index`: rounds end at question numbers
      8, 15, 25, 30 and 35. */
  function RoundOf(index: nat): (r: nat)
    ensures 1 <= r <= 6
  {
    var n := index + 1;
    if n <= 8 then 1 else if n <= 15 then 2 else if n <= 25 then 3
    else if n <= 30 then 4 else if n <= 35 then 5 else 6
  }

  /** `shouldShowRoundBreak` for the question at `index`: its number is 9, 16, 26, 31
      or 36. */
  predicate ShouldShowRoundBreak(index: nat) {
    var n := index + 1;
    n == 9 || n == 16 || n == 26 || n == 31 || n == 36
  }

  /** Rounds never go back as the index grows. */
  lemma RoundMonotone(i: nat, j: nat)
    requires i <= j
    ensures RoundOf(i) <= RoundOf(j)
  {
  }

  /** The first question of each round, by number. */
  lemma RoundCutoffs(index: nat)
    ensures RoundOf(index) == 1 <==> index + 1 <= 8
    ensures RoundOf(index) == 2 <==> 9 <= index + 1 <= 15
    ensures RoundOf(index) == 3 <==> 16 <= index + 1 <= 25
    ensures RoundOf(index) == 4 <==> 26 <= index + 1 <= 30
    ensures RoundOf(index) == 5 <==> 31 <= index + 1 <= 35
    ensures RoundOf(index) == 6 <==> 36 <= index + 1
  {
  }

  /** The break numbers are exactly the first questions of rounds 2 to 6. */
  lemma BreakMarksRoundStart(index: nat)
    ensures ShouldShowRoundBreak(index) <==> index > 0 && RoundOf(index) != RoundOf(index - 1)
  {
  }

  /** Next, as written, tests the question just answered: going from the 8th question to
      the 9th enters round 2 with no break, and the break comes one question later, from
      the 9th to the 10th, inside round 2. */
  lemma LateRoundBreak()
    ensures RoundOf(7) == 1 && RoundOf(8) == 2 && !ShouldShowRoundBreak(7)
    ensures ShouldShowRoundBreak(8) && RoundOf(9) == RoundOf(8)
  {
  }

  /** Testing the question arrived at instead raises the flag exactly when a step enters a
      new round. */
  lemma CorrectedBreakIffNewRound(index: nat)
    ensures ShouldShowRoundBreak(index + 1) <==> RoundOf(index + 1) != RoundOf(index)
  {
    BreakMarksRoundStart(index + 1);
  }

  // ---------------------------------------------------------------------------------
  // Recording an answer

  /** `answers.filter(a => a.questionId !== id)`. */
  function Without(answers: seq<QuizAnswer>, id: string): seq<QuizAnswer> {
    if answers == [] then []
    else (if answers[0].questionId != id then [answers[0]] else []) + Without(answers[1..], id)
  }

  /** The filtered list, with the new answer pushed at the end. */
  function Upsert(answers: seq<QuizAnswer>, a: QuizAnswer): seq<QuizAnswer> {
    Without(answers, a.questionId) + [a]
  }

  /** Filtering keeps exactly the entries for other questions, and leaves a list with no
      entry for the question as it was. */
  lemma {:induction false} WithoutSpec(answers: seq<QuizAnswer>, id: string)
    ensures forall x :: x in Without(answers, id) <==> x in answers && x.questionId != id
    ensures (forall i :: 0 <= i < |answers| ==> answers[i].questionId != id) ==> Without(answers, id) == answers
  {
    if answers != [] {
      WithoutSpec(answers[1..], id);
      assert answers == [answers[0]] + answers[1..];
    }
  }

  /** Filtering keeps a list without repeated questions so. */
  lemma {:induction false} WithoutDistinct(answers: seq<QuizAnswer>, id: string)
    requires DistinctIds(answers)
    ensures DistinctIds(Without(answers, id))
  {
    if answers != [] {
      var rest := answers[1..];
      DistinctTail(answers);
      WithoutDistinct(rest, id);
      WithoutSpec(rest, id);
      if answers[0].questionId != id {
        DistinctCons(answers[0], Without(rest, id));
      } else {
        assert [] + Without(rest, id) == Without(rest, id);
      }
    }
  }

  lemma DistinctTail(answers: seq<QuizAnswer>)
    requires answers != [] && DistinctIds(answers)
    ensures DistinctIds(answers[1..])
    ensures forall x :: x in answers[1..] ==> x.questionId != answers[0].questionId
  {
    var rest := answers[1..];
    forall i, j | 0 <= i < j < |rest| ensures rest[i].questionId != rest[j].questionId {
      assert rest[i] == answers[i + 1] && rest[j] == answers[j + 1];
    }
    forall x | x in rest ensures x.questionId != answers[0].questionId {
      var k :| 0 <= k < |rest| && rest[k] == x;
      assert answers[k + 1] == x;
    }
  }

  lemma DistinctCons(x: QuizAnswer, w: seq<QuizAnswer>)
    requires DistinctIds(w) && forall y :: y in w ==> y.questionId != x.questionId
    ensures DistinctIds([x] + w)
  {
    var t := [x] + w;
    forall i, j | 0 <= i < j < |t| ensures t[i].questionId != t[j].questionId {
      assert t[j] == w[j - 1];
      if i > 0 {
        assert t[i] == w[i - 1];
      } else {
        assert w[j - 1] in w;
      }
    }
  }

  /** After recording, the list holds the new answer last and no other entry for its
      question, and every other entry comes from the old list; every last-wins lookup of
      another question is unchanged, and a lookup of the question itself yields the new
      answer. A list without repeated questions stays so. */
  lemma UpsertSpec(answers: seq<QuizAnswer>, a: QuizAnswer)
    ensures var u := Upsert(answers, a);
            |u| >= 1 && u[|u| - 1] == a
            && (forall i :: 0 <= i < |u| - 1 ==> u[i].questionId != a.questionId)
            && (forall x :: x in u ==> x == a || (x in answers && x.questionId != a.questionId))
    ensures forall id :: LastAnswer(Upsert(answers, a), id)
                           == if id == a.questionId then Some(a.answer) else LastAnswer(answers, id)
    ensures DistinctIds(answers) ==> DistinctIds(Upsert(answers, a))
  {
    var w := Without(answers, a.questionId);
    var u := w + [a];
    WithoutSpec(answers, a.questionId);
    if DistinctIds(answers) {
      WithoutDistinct(answers, a.questionId);
    }
    assert u[..|u| - 1] == w;
    forall i | 0 <= i < |u| - 1 ensures u[i].questionId != a.questionId {
      assert u[i] in w;
    }
    forall id | id != a.questionId ensures LastAnswer(u, id) == LastAnswer(answers, id) {
      WithoutLookup(answers, a.questionId, id);
    }
  }

  /** Filtering one question out changes no last-wins lookup of another. */
  lemma {:induction false} WithoutLookup(answers: seq<QuizAnswer>, dropped: string, id: string)
    requires dropped != id
    ensures LastAnswer(Without(answers, dropped), id) == LastAnswer(answers, id)
  {
    if answers != [] {
      var init, last := answers[..|answers| - 1], answers[|answers| - 1];
      WithoutLookup(init, dropped, id);
      WithoutAppend(init, [last], dropped);
      assert answers == init + [last];
      assert Without([last], dropped) == (if last.questionId != dropped then [last] else []);
      var w := Without(init, dropped);
      if last.questionId != dropped {
        assert (w + [last])[..|w|] == w;
      } else {
        assert w + [] == w;
      }
    }
  }

  lemma {:induction false} WithoutAppend(s: seq<QuizAnswer>, t: seq<QuizAnswer>, id: string)
    ensures Without(s + t, id) == Without(s, id) + Without(t, id)
  {
    if s == [] {
      assert s + t == t;
    } else {
      assert (s + t)[1..] == s[1..] + t;
      WithoutAppend(s[1..], t, id);
    }
  }

  /** On a list the quiz produced, both lookups agree, so the scorer and the analyzer see
      the same answer to every question. */
  lemma QuizListLookupsAgree(answers: seq<QuizAnswer>, a: QuizAnswer)
    requires DistinctIds(answers)
    ensures forall id :: FirstAnswer(Upsert(answers, a), id) == LastAnswer(Upsert(answers, a), id)
  {
    UpsertSpec(answers, a);
    forall id ensures FirstAnswer(Upsert(answers, a), id) == LastAnswer(Upsert(answers, a), id) {
      FirstIsLastWhenDistinct(Upsert(answers, a), id);
    }
  }

  // ---------------------------------------------------------------------------------
  // The edited answer

  /** `isAnswered`: a multi-select question needs a non-empty list; any other question
      any value but the empty string. */
  predicate AnswerGiven(kind: QuestionType, v: AnswerValue) {
    if kind == MultiSelect then v.Multi? && |v.items| > 0 else v != Str("")
  }

  /** `items.filter(a => a !== option)`. */
  function RemoveAll(items: seq<string>, option: string): seq<string> {
    if items == [] then []
    else (if items[0] != option then [items[0]] else []) + RemoveAll(items[1..], option)
  }

  /** The multi-select toggle: a selected option is removed, an unselected one appended. */
  function Toggled(items: seq<string>, option: string): seq<string> {
    if option in items then RemoveAll(items, option) else items + [option]
  }

  lemma {:induction false} RemoveAllSpec(items: seq<string>, option: string)
    ensures forall x :: x in RemoveAll(items, option) <==> x in items && x != option
    ensures option !in items ==> RemoveAll(items, option) == items
  {
    if items != [] {
      RemoveAllSpec(items[1..], option);
      assert items == [items[0]] + items[1..];
    }
  }

  /** Toggling flips whether the option is selected and leaves every other option as it
      was; toggling an unselected option twice restores the list. */
  lemma ToggleSpec(items: seq<string>, option: string)
    ensures option in Toggled(items, option) <==> option !in items
    ensures forall x :: x != option ==> (x in Toggled(items, option) <==> x in items)
    ensures option !in items ==> Toggled(Toggled(items, option), option) == items
  {
    RemoveAllSpec(items, option);
    if option !in items {
      var t := items + [option];
      RemoveAllSpec(t, option);
      RemoveAllAppend(items, [option], option);
      assert RemoveAll([option], option) == [];
      assert items + [] == items;
    }
  }

  lemma {:induction false} RemoveAllAppend(s: seq<string>, t: seq<string>, option: string)
    ensures RemoveAll(s + t, option) == RemoveAll(s, option) + RemoveAll(t, option)
  {
    if s == [] {
      assert s + t == t;
    } else {
      assert (s + t)[1..] == s[1..] + t;
      RemoveAllAppend(s[1..], t, option);
    }
  }

  /** Selecting an option on a multi-select question makes it answered. */
  lemma ToggleAnswers(items: seq<string>, option: string)
    requires option !in items
    ensures AnswerGiven(MultiSelect, Multi(Toggled(items, option)))
  {
  }

  // ---------------------------------------------------------------------------------
  // The page

  class QuizPage {
    const questions: seq<Question>
    var currentIndex: nat
    var answers: seq<QuizAnswer>
    var currentAnswer: AnswerValue
    var showRoundBreak: bool
    /** The list handed to submission, once the last question is answered. */
    var submitted: Option<seq<QuizAnswer>>

    /** The index names a question, and no question is answered twice. */
    predicate Valid()
      reads this
    {
      |questions| > 0 && currentIndex < |questions| && DistinctIds(answers)
    }

    constructor(questions: seq<Question>)
      requires |questions| > 0
      ensures Valid() && this.questions == questions
      ensures currentIndex == 0 && answers == [] && currentAnswer == Str("")
      ensures !showRoundBreak && submitted == None
    {
      this.questions := questions;
      currentIndex := 0;
      answers := [];
      currentAnswer := Str("");
      showRoundBreak := false;
      submitted := None;
    }

    /** `isAnswered` for the current question. */
    predicate IsAnswered()
      requires Valid()
      reads this
    {
      AnswerGiven(questions[currentIndex].kind, currentAnswer)
    }

    /** `handleAnswerChange`. */
    method ChangeAnswer(v: AnswerValue)
      modifies this
      requires Valid()
      ensures Valid() && currentAnswer == v
      ensures currentIndex == old(currentIndex) && answers == old(answers)
      ensures showRoundBreak == old(showRoundBreak) && submitted == old(submitted)
    {
      currentAnswer := v;
    }

    /** The multi-select option handler: the edited list (empty when the edited answer is
        not a list) with `option` toggled. */
    method ToggleOption(option: string)
      modifies this
      requires Valid()
      ensures Valid()
      ensures currentAnswer == Multi(Toggled(if old(currentAnswer).Multi? then old(currentAnswer).items else [], option))
      ensures currentIndex == old(currentIndex) && answers == old(answers)
      ensures showRoundBreak == old(showRoundBreak) && submitted == old(submitted)
    {
      var items := if currentAnswer.Multi? then currentAnswer.items else [];
      var next := if option in items then RemoveAll(items, option) else items + [option];
      currentAnswer := Multi(next);
    }

    /** The effect run when the question changes and no break is showing: the edited
        answer becomes the recorded answer to the current question (the first, by
        `find`), or an empty value of the question's type. */
    method LoadCurrentAnswer()
      modifies this
      requires Valid()
      ensures Valid()
      ensures var v := FirstAnswer(answers, questions[currentIndex].id);
              currentAnswer == (if old(showRoundBreak) then old(currentAnswer)
                                else if v.Some? then v.value
                                else if questions[currentIndex].kind == MultiSelect then Multi([])
                                else Str(""))
      ensures currentIndex == old(currentIndex) && answers == old(answers)
      ensures showRoundBreak == old(showRoundBreak) && submitted == old(submitted)
      ensures !old(showRoundBreak) ==>
                (IsAnswered() <==> var v := FirstAnswer(answers, questions[currentIndex].id);
                                   v.Some? && AnswerGiven(questions[currentIndex].kind, v.value))
    {
      if !showRoundBreak {
        var existing := FirstAnswer(answers, questions[currentIndex].id);
        if existing.Some? {
          currentAnswer := existing.value;
        } else if questions[currentIndex].kind == MultiSelect {
          currentAnswer := Multi([]);
        } else {
          currentAnswer := Str("");
        }
      }
    }

    /** `handleNext`, as written: record the edited answer; before the last question,
        advance and raise the break flag when the question just answered (the index
        before the step) is a break number; on the last question, submit the updated
        list. */
    method Next()
      modifies this
      requires Valid()
      ensures Valid()
      ensures answers == Upsert(old(answers), QuizAnswer(questions[old(currentIndex)].id, old(currentAnswer)))
      ensures old(currentIndex) < |questions| - 1 ==>
                currentIndex == old(currentIndex) + 1 && submitted == old(submitted)
                && showRoundBreak == (old(showRoundBreak) || ShouldShowRoundBreak(old(currentIndex)))
      ensures old(currentIndex) == |questions| - 1 ==>
                currentIndex == old(currentIndex) && submitted == Some(answers)
                && showRoundBreak == old(showRoundBreak)
      ensures currentAnswer == old(currentAnswer)
    {
      var newAnswer := QuizAnswer(questions[currentIndex].id, currentAnswer);
      var updated := Without(answers, newAnswer.questionId);
      updated := updated + [newAnswer];
      UpsertSpec(answers, newAnswer);
      answers := updated;
      if currentIndex < |questions| - 1 {
        var breakDue := ShouldShowRoundBreak(currentIndex);
        currentIndex := currentIndex + 1;
        if breakDue {
          showRoundBreak := true;
        }
      } else {
        submitted := Some(updated);
      }
    }

    /** `handleNext` with the break test on the question arrived at: the flag is raised
        exactly when the step enters a new round. */
    method NextCorrected()
      modifies this
      requires Valid()
      ensures Valid()
      ensures answers == Upsert(old(answers), QuizAnswer(questions[old(currentIndex)].id, old(currentAnswer)))
      ensures old(currentIndex) < |questions| - 1 ==>
                currentIndex == old(currentIndex) + 1 && submitted == old(submitted)
                && showRoundBreak == (old(showRoundBreak) || RoundOf(currentIndex) != RoundOf(old(currentIndex)))
      ensures old(currentIndex) == |questions| - 1 ==>
                currentIndex == old(currentIndex) && submitted == Some(answers)
                && showRoundBreak == old(showRoundBreak)
      ensures currentAnswer == old(currentAnswer)
    {
      var newAnswer := QuizAnswer(questions[currentIndex].id, currentAnswer);
      var updated := Without(answers, newAnswer.questionId);
      updated := updated + [newAnswer];
      UpsertSpec(answers, newAnswer);
      answers := updated;
      if currentIndex < |questions| - 1 {
        CorrectedBreakIffNewRound(currentIndex);
        currentIndex := currentIndex + 1;
        if ShouldShowRoundBreak(currentIndex) {
          showRoundBreak := true;
        }
      } else {
        submitted := Some(updated);
      }
    }

    /** `handleRoundBreakNext`: clears the flag and nothing else. */
    method RoundBreakNext()
      modifies this
      requires Valid()
      ensures Valid() && !showRoundBreak
      ensures currentIndex == old(currentIndex) && answers == old(answers)
      ensures currentAnswer == old(currentAnswer) && submitted == old(submitted)
    {
      showRoundBreak := false;
    }

    /** `handlePrevious`: nothing at the first question; otherwise step back, showing the
        break exactly when the question arrived at is the first one or a break number. */
    method Previous()
      modifies this
      requires Valid()
      ensures Valid()
      ensures old(currentIndex) == 0 ==> currentIndex == 0 && showRoundBreak == old(showRoundBreak)
      ensures old(currentIndex) > 0 ==>
                currentIndex == old(currentIndex) - 1
                && showRoundBreak == (currentIndex == 0 || ShouldShowRoundBreak(currentIndex))
      ensures answers == old(answers) && currentAnswer == old(currentAnswer) && submitted == old(submitted)
    {
      if currentIndex > 0 {
        var prevIndex := currentIndex - 1;
        currentIndex := prevIndex;
        var prevNumber := prevIndex + 1;
        if prevNumber == 1 || prevNumber == 9 || prevNumber == 16 || prevNumber == 26 || prevNumber == 31 || prevNumber == 36 {
          showRoundBreak := true;
        } else {
          showRoundBreak := false;
        }
      }
    }
  }
}
