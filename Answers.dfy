/**
  Quiz answers as the pages store them: an ordered list of `{questionId, answer}` pairs
  whose values are a string (single choice), a number (scale) or a list of strings
  (multi-select). Two lookups are used on that list: the scorer fills a Map in list order,
  so the LAST answer for a question wins; the analyzer uses `find`, so the FIRST one wins.
*/
module Answers {
  import opened Wrappers

  datatype AnswerValue = Str(s: string) | Num(n: int) | Multi(items: seq<string>)

  datatype QuizAnswer = QuizAnswer(questionId: string, answer: AnswerValue)

  /** JavaScript truthiness of a looked-up answer: `undefined`, `''` and `0` are falsy;
      every array, even an empty one, is truthy. */
  predicate Truthy(v: Option<AnswerValue>) {
    match v
    case None => false
    case Some(Str(s)) => s != ""
    case Some(Num(n)) => n != 0
    case Some(Multi(_)) => true
  }

  /** `typeof answer === 'number' ? answer : 0`. */
  function ScaleValue(v: Option<AnswerValue>): int {
    if v.Some? && v.value.Num? then v.value.n else 0
  }

  /** The value of the last answer for `id` in the list. */
  function LastAnswer(answers: seq<QuizAnswer>, id: string): Option<AnswerValue> {
    if answers == [] then None
    else if answers[|answers| - 1].questionId == id then Some(answers[|answers| - 1].answer)
    else LastAnswer(answers[..|answers| - 1], id)
  }

  /** `LastAnswer` finds nothing exactly when no answer is for `id`, and otherwise the
      value of an answer for `id` that no later answer for `id` follows. */
  lemma {:induction false} LastAnswerSpec(answers: seq<QuizAnswer>, id: string)
    ensures LastAnswer(answers, id).None? <==> forall i :: 0 <= i < |answers| ==> answers[i].questionId != id
    ensures LastAnswer(answers, id).Some? ==>
              exists i :: 0 <= i < |answers| && answers[i] == QuizAnswer(id, LastAnswer(answers, id).value)
                          && forall j :: i < j < |answers| ==> answers[j].questionId != id
  {
    if answers != [] && answers[|answers| - 1].questionId != id {
      var init := answers[..|answers| - 1];
      LastAnswerSpec(init, id);
      if LastAnswer(init, id).Some? {
        var i :| 0 <= i < |init| && init[i] == QuizAnswer(id, LastAnswer(init, id).value)
                 && forall j :: i < j < |init| ==> init[j].questionId != id;
        assert answers[i] == init[i];
      }
    }
  }

  /** The value of the first answer for `id` in the list (`answers.find(...)?.answer`). */
  function FirstAnswer(answers: seq<QuizAnswer>, id: string): Option<AnswerValue> {
    if answers == [] then None
    else if answers[0].questionId == id then Some(answers[0].answer)
    else FirstAnswer(answers[1..], id)
  }

  /** `FirstAnswer` finds nothing exactly when no answer is for `id`, and otherwise the
      value of an answer for `id` that no earlier answer for `id` precedes. */
  lemma {:induction false} FirstAnswerSpec(answers: seq<QuizAnswer>, id: string)
    ensures FirstAnswer(answers, id).None? <==> forall i :: 0 <= i < |answers| ==> answers[i].questionId != id
    ensures FirstAnswer(answers, id).Some? ==>
              exists i :: 0 <= i < |answers| && answers[i] == QuizAnswer(id, FirstAnswer(answers, id).value)
                          && forall j :: 0 <= j < i ==> answers[j].questionId != id
  {
    if answers != [] && answers[0].questionId != id {
      var rest := answers[1..];
      FirstAnswerSpec(rest, id);
      if FirstAnswer(rest, id).Some? {
        var i :| 0 <= i < |rest| && rest[i] == QuizAnswer(id, FirstAnswer(rest, id).value)
                 && forall j :: 0 <= j < i ==> rest[j].questionId != id;
        assert answers[i + 1] == rest[i];
        forall j | 0 <= j < i + 1 ensures answers[j].questionId != id {
          if j > 0 { assert answers[j] == rest[j - 1]; }
        }
      }
    }
  }

  /** Appending an answer to a question already answered leaves every first-wins lookup
      as it was. */
  lemma {:induction false} FirstAnswerAppended(answers: seq<QuizAnswer>, later: QuizAnswer)
    requires FirstAnswer(answers, later.questionId).Some?
    ensures forall id :: FirstAnswer(answers + [later], id) == FirstAnswer(answers, id)
  {
    forall id ensures FirstAnswer(answers + [later], id) == FirstAnswer(answers, id) {
      FirstAnswerAppendedAt(answers, later, id);
    }
  }

  lemma {:induction false} FirstAnswerAppendedAt(answers: seq<QuizAnswer>, later: QuizAnswer, id: string)
    requires FirstAnswer(answers, later.questionId).Some?
    ensures FirstAnswer(answers + [later], id) == FirstAnswer(answers, id)
  {
    if answers[0].questionId != id && answers[0].questionId != later.questionId {
      assert (answers + [later])[1..] == answers[1..] + [later];
      FirstAnswerAppendedAt(answers[1..], later, id);
    } else if answers[0].questionId != id {
      assert (answers + [later])[1..] == answers[1..] + [later];
      FirstAnswerUnchanged(answers[1..], later, id);
    }
  }

  /** Appending an answer to another question does not change a first-wins lookup. */
  lemma {:induction false} FirstAnswerUnchanged(answers: seq<QuizAnswer>, later: QuizAnswer, id: string)
    requires later.questionId != id
    ensures FirstAnswer(answers + [later], id) == FirstAnswer(answers, id)
  {
    if answers == [] {
      assert [] + [later] == [later];
    } else if answers[0].questionId != id {
      assert (answers + [later])[1..] == answers[1..] + [later];
      FirstAnswerUnchanged(answers[1..], later, id);
    }
  }

  /** No question is answered twice. */
  predicate DistinctIds(answers: seq<QuizAnswer>) {
    forall i, j :: 0 <= i < j < |answers| ==> answers[i].questionId != answers[j].questionId
  }

  /** On a list without repeated questions the two lookups agree. */
  lemma FirstIsLastWhenDistinct(answers: seq<QuizAnswer>, id: string)
    requires DistinctIds(answers)
    ensures FirstAnswer(answers, id) == LastAnswer(answers, id)
  {
    var f, l := FirstAnswer(answers, id), LastAnswer(answers, id);
    FirstAnswerSpec(answers, id);
    LastAnswerSpec(answers, id);
    if f.Some? {
      var i :| 0 <= i < |answers| && answers[i] == QuizAnswer(id, f.value);
      var j :| 0 <= j < |answers| && answers[j] == QuizAnswer(id, l.value);
      assert i == j;
    }
  }

  /** With a repeated question the lookups part ways: the Map keeps the last value, `find`
      the first. */
  lemma DuplicateLookupsDiffer(id: string, first: AnswerValue, last: AnswerValue)
    ensures LastAnswer([QuizAnswer(id, first), QuizAnswer(id, last)], id) == Some(last)
    ensures FirstAnswer([QuizAnswer(id, first), QuizAnswer(id, last)], id) == Some(first)
  {
  }

  /** On a list without repeated questions, the last answer for `id` is `v` exactly when
      the pair `(id, v)` is in the list. */
  lemma {:induction false} LastAnswerMember(answers: seq<QuizAnswer>, id: string, v: AnswerValue)
    requires DistinctIds(answers)
    ensures LastAnswer(answers, id) == Some(v) <==> QuizAnswer(id, v) in answers
  {
    var r := LastAnswer(answers, id);
    LastAnswerSpec(answers, id);
    if QuizAnswer(id, v) in answers {
      var k :| 0 <= k < |answers| && answers[k] == QuizAnswer(id, v);
      assert r.Some?;
      var i :| 0 <= i < |answers| && answers[i] == QuizAnswer(id, r.value);
      assert i == k;
    }
  }

  /** Reordering a list without repeated questions changes no lookup: the answer set is
      an unordered mapping. */
  lemma PermutedLookupsAgree(s: seq<QuizAnswer>, t: seq<QuizAnswer>, id: string)
    requires DistinctIds(s) && DistinctIds(t)
    requires multiset(s) == multiset(t)
    ensures LastAnswer(s, id) == LastAnswer(t, id)
  {
    FoundInPermutation(s, t, id);
    FoundInPermutation(t, s, id);
  }

  lemma FoundInPermutation(s: seq<QuizAnswer>, t: seq<QuizAnswer>, id: string)
    requires DistinctIds(s) && DistinctIds(t)
    requires multiset(s) == multiset(t)
    ensures LastAnswer(s, id).Some? ==> LastAnswer(t, id) == LastAnswer(s, id)
  {
    var a := LastAnswer(s, id);
    if a.Some? {
      LastAnswerMember(s, id, a.value);
      assert QuizAnswer(id, a.value) in multiset(t);
      LastAnswerMember(t, id, a.value);
    }
  }

  /** Answering a question again hides the earlier answer from every last-wins lookup. */
  lemma LastAnswerShadowed(answers: seq<QuizAnswer>, earlier: QuizAnswer, later: QuizAnswer)
    requires earlier.questionId == later.questionId
    ensures forall id :: LastAnswer(answers + [earlier, later], id) == LastAnswer(answers + [later], id)
  {
    forall id ensures LastAnswer(answers + [earlier, later], id) == LastAnswer(answers + [later], id) {
      var s, t := answers + [earlier, later], answers + [later];
      assert s[..|s| - 1] == answers + [earlier];
      assert (answers + [earlier])[..|answers|] == answers;
      assert t[..|t| - 1] == answers;
    }
  }

  function Lookup(m: map<string, AnswerValue>, id: string): Option<AnswerValue> {
    if id in m then Some(m[id]) else None
  }

  /** `answers.forEach(a => answerMap.set(a.questionId, a.answer))`: later answers
      overwrite earlier ones, so every lookup yields the last answer for that question. */
  method BuildAnswerMap(answers: seq<QuizAnswer>) returns (m: map<string, AnswerValue>)
    ensures forall id :: Lookup(m, id) == LastAnswer(answers, id)
  {
    m := map[];
    var i := 0;
    while i < |answers|
      invariant 0 <= i <= |answers|
      invariant forall id :: Lookup(m, id) == LastAnswer(answers[..i], id)
    {
      m := m[answers[i].questionId := answers[i].answer];
      assert answers[..i + 1][..i] == answers[..i];
      i := i + 1;
    }
    assert answers[..|answers|] == answers;
  }
}
