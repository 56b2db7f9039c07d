/** The "Quick quiz" (app.py:180-210): three fixed multiple-choice
    questions, the selected option of each turned into its index, and the
    score counted against the answer key. */
module Quiz {

  /** One question: its prompt, four options and the 0-based index of the
      correct option. */
  datatype Question = Question(prompt: string, options: seq<string>, answer: nat)

  const Questions: seq<Question> := [
    Question("Which of these is a CBT technique?",
             ["Exposure to feared situations", "Journaling thoughts and evidence",
              "Physical exercise only", "Ignoring thoughts"],
             1),
    Question("A good mindfulness practice is:",
             ["Multitasking while breathing", "Judging thoughts as bad",
              "Observing sensations without reacting", "Forcing emotions away"],
             2),
    Question("Behavioral activation focuses on:",
             ["Avoiding activities to prevent stress",
              "Scheduling reinforcing activities to improve mood",
              "Only talking about feelings", "Immediate resolution of all problems"],
             1)
  ]

  /** The correct option index of each question, in order: [1, 2, 1]. Each
      names one of its question's options. */
  function AnswerKey(): (key: seq<nat>)
    ensures |key| == |Questions|
    ensures forall i :: 0 <= i < |key| ==> key[i] < |Questions[i].options|
    ensures key == [1, 2, 1]
  {
    [Questions[0].answer, Questions[1].answer, Questions[2].answer]
  }

  /** Python's `options.index(choice)`: the first position holding
      `choice`. */
  function IndexOf(options: seq<string>, choice: string): (r: nat)
    requires choice in options
    ensures r < |options| && options[r] == choice
    ensures forall j :: 0 <= j < r ==> options[j] != choice
  {
    if options[0] == choice then 0 else 1 + IndexOf(options[1..], choice)
  }

  /** A selection of one option text per question. */
  ghost predicate Selectable(choices: seq<string>) {
    |choices| == |Questions|
    && forall i :: 0 <= i < |choices| ==> choices[i] in Questions[i].options
  }

  /** The index of each selected option (the list built at app.py:198-202). */
  function AnswersFor(choices: seq<string>): (answers: seq<nat>)
    requires Selectable(choices)
    ensures |answers| == |Questions|
    ensures forall i :: 0 <= i < |Questions| ==>
      answers[i] < |Questions[i].options| && Questions[i].options[answers[i]] == choices[i]
  {
    seq(|Questions|, i requires 0 <= i < |Questions| => IndexOf(Questions[i].options, choices[i]))
  }

  /** The loop of app.py:199-202 that turns each question's radio selection
      into the index of the option chosen. */
  method CollectAnswers(choices: seq<string>) returns (answers: seq<nat>)
    requires Selectable(choices)
    ensures answers == AnswersFor(choices)
  {
    answers := [];
    for idx := 0 to |Questions|
      invariant answers == AnswersFor(choices)[..idx]
    {
      answers := answers + [IndexOf(Questions[idx].options, choices[idx])];
    }
  }

  /** How many positions hold the same value in `answers` and `key`. */
  function Matches(answers: seq<nat>, key: seq<nat>): (n: nat)
    requires |answers| == |key|
    ensures n <= |answers|
  {
    if answers == [] then 0
    else
      var last := |answers| - 1;
      Matches(answers[..last], key[..last]) + (if answers[last] == key[last] then 1 else 0)
  }

  /** The scoring loop of app.py:203-206: one point per answer equal to
      the key, so the score lies between 0 and 3. */
  method ScoreQuiz(answers: seq<nat>) returns (score: nat)
    requires |answers| == |Questions|
    ensures score == Matches(answers, AnswerKey())
    ensures score <= |Questions|
  {
    var key := AnswerKey();
    score := 0;
    for i := 0 to |answers|
      invariant score == Matches(answers[..i], key[..i])
    {
      assert answers[..i + 1][..i] == answers[..i] && key[..i + 1][..i] == key[..i];
      if answers[i] == key[i] {
        score := score + 1;
      }
    }
    assert answers[..|answers|] == answers && key[..|key|] == key;
  }

  /** Full marks exactly when every answer is the key's. */
  lemma {:induction false} FullMarksIff(answers: seq<nat>, key: seq<nat>)
    requires |answers| == |key|
    ensures Matches(answers, key) == |answers| <==> answers == key
  {
    if answers != [] {
      var last := |answers| - 1;
      FullMarksIff(answers[..last], key[..last]);
      if answers == key {
        assert answers[..last] == key[..last];
      }
    }
  }

  /** No marks exactly when no answer is the key's. */
  lemma {:induction false} NoMarksIff(answers: seq<nat>, key: seq<nat>)
    requires |answers| == |key|
    ensures Matches(answers, key) == 0 <==>
      forall i :: 0 <= i < |answers| ==> answers[i] != key[i]
  {
    if answers != [] {
      var last := |answers| - 1;
      NoMarksIff(answers[..last], key[..last]);
      if Matches(answers, key) == 0 {
        forall i | 0 <= i < |answers| ensures answers[i] != key[i] {
          if i < last {
            assert answers[..last][i] == answers[i] && key[..last][i] == key[i];
          }
        }
      } else {
        // Some position matches: either the last one, or one before it.
        if answers[last] != key[last] {
          var i :| 0 <= i < last && answers[..last][i] == key[..last][i];
          assert answers[i] == key[i];
        }
      }
    }
  }

  /** The two sample submissions: [1, 2, 1] scores 3 and [0, 0, 0]
      scores 0. */
  lemma SampleScores()
    ensures Matches([1, 2, 1], AnswerKey()) == 3
    ensures Matches([0, 0, 0], AnswerKey()) == 0
  {
  }

  /** The correct option of each question, as revealed after submitting
      (app.py:208-210). */
  function RevealedAnswers(): (texts: seq<string>)
    ensures Selectable(texts)
  {
    seq(|Questions|, i requires 0 <= i < |Questions| => Questions[i].options[Questions[i].answer])
  }

  /** Selecting the revealed options gives full marks: every question's
      options are distinct, so each revealed text maps back to the key. */
  lemma RevealedAnswersScoreFull()
    ensures Matches(AnswersFor(RevealedAnswers()), AnswerKey()) == |Questions|
  {
  }
}
