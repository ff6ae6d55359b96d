/**
 * The answer buttons of the `guess`, `quiz` and `riddle` handlers: every
 * button carries the callback tag "correct" or "wrong".
 */
module AnswerOptions {
  import opened Basics
  import opened RandomSelection

  const CorrectTag: string := "correct"
  const WrongTag: string := "wrong"

  /**
   * A button caption: literal text, or the decimal rendering of a draw
   * times ten (`${Math.random() * 10}`), kept as the draw itself.
   */
  datatype Label = Text(text: string) | Decimal(draw: Random)

  /** An inline button that sends `tag` back as its callback data. */
  datatype Choice = Choice(caption: Label, tag: string)

  /** A quiz or riddle: a question with its correct and its wrong answers. */
  datatype QuizEntry = QuizEntry(question: string, correct: seq<string>, wrong: seq<string>)

  function ChoiceTag(c: Choice): string
  {
    c.tag
  }

  /** The callback tags of a row of buttons, in order. */
  function Tags(cs: seq<Choice>): seq<string>
  {
    Map(ChoiceTag, cs)
  }

  /** Each answer as a button tagged `tag` (`answers.map(ans => callback(ans, tag))`). */
  function Tagged(answers: seq<string>, tag: string): (r: seq<Choice>)
    ensures |r| == |answers|
    ensures forall i :: 0 <= i < |r| ==> r[i].caption == Text(answers[i]) && r[i].tag == tag
  {
    Map((a: string) => Choice(Text(a), tag), answers)
  }

  /** The options of a quiz or riddle before shuffling: the correct answers, then the wrong ones. */
  function AnswerButtons(e: QuizEntry): (r: seq<Choice>)
    ensures |r| == |e.correct| + |e.wrong|
  {
    Tagged(e.correct, CorrectTag) + Tagged(e.wrong, WrongTag)
  }

  /** n copies of t. */
  function Repeat(t: string, n: nat): (r: seq<string>)
    ensures |r| == n
  {
    if n == 0 then [] else [t] + Repeat(t, n - 1)
  }

  lemma {:induction false} RepeatCount(t: string, u: string, n: nat)
    ensures multiset(Repeat(t, n))[u] == if u == t then n else 0
  {
    if n > 0 {
      RepeatCount(t, u, n - 1);
      assert Repeat(t, n) == [t] + Repeat(t, n - 1);
    }
  }

  lemma {:induction false} RepeatAt(t: string, n: nat, i: nat)
    requires i < n
    ensures Repeat(t, n)[i] == t
  {
    if i > 0 {
      RepeatAt(t, n - 1, i - 1);
    }
  }

  /**
   * Before shuffling, the options are every correct answer tagged "correct"
   * followed by every wrong answer tagged "wrong", in catalog order.
   */
  lemma AnswerButtonsShape(e: QuizEntry)
    ensures |AnswerButtons(e)| == |e.correct| + |e.wrong|
    ensures Tags(AnswerButtons(e)) == Repeat(CorrectTag, |e.correct|) + Repeat(WrongTag, |e.wrong|)
    ensures forall i :: 0 <= i < |e.correct| ==> AnswerButtons(e)[i].caption == Text(e.correct[i])
    ensures forall i :: 0 <= i < |e.wrong| ==> AnswerButtons(e)[|e.correct| + i].caption == Text(e.wrong[i])
  {
    var tags := Tags(AnswerButtons(e));
    var want := Repeat(CorrectTag, |e.correct|) + Repeat(WrongTag, |e.wrong|);
    forall i | 0 <= i < |want|
      ensures tags[i] == want[i]
    {
      if i < |e.correct| {
        RepeatAt(CorrectTag, |e.correct|, i);
      } else {
        RepeatAt(WrongTag, |e.wrong|, i - |e.correct|);
      }
    }
  }

  /**
   * The shown options of a quiz or riddle are a permutation of its answer
   * buttons: |correct| + |wrong| of them, |correct| tagged "correct" and
   * |wrong| tagged "wrong", whatever the draws.
   */
  lemma ShuffledAnswers(e: QuizEntry, rand: Oracle, k: nat)
    ensures |Shuffled(AnswerButtons(e), rand, k)| == |e.correct| + |e.wrong|
    ensures multiset(Shuffled(AnswerButtons(e), rand, k)) == multiset(AnswerButtons(e))
    ensures multiset(Tags(Shuffled(AnswerButtons(e), rand, k))) ==
            multiset(Repeat(CorrectTag, |e.correct|) + Repeat(WrongTag, |e.wrong|))
    ensures multiset(Tags(Shuffled(AnswerButtons(e), rand, k)))[CorrectTag] == |e.correct|
    ensures multiset(Tags(Shuffled(AnswerButtons(e), rand, k)))[WrongTag] == |e.wrong|
  {
    var buttons := AnswerButtons(e);
    AnswerButtonsShape(e);
    ShuffledPermutes(buttons, rand, k);
    ShuffledMap(ChoiceTag, buttons, rand, k);
    ShuffledPermutes(Tags(buttons), rand, k);
    RepeatCount(CorrectTag, CorrectTag, |e.correct|);
    RepeatCount(CorrectTag, WrongTag, |e.correct|);
    RepeatCount(WrongTag, CorrectTag, |e.wrong|);
    RepeatCount(WrongTag, WrongTag, |e.wrong|);
  }

  /**
   * The answer's position gives nothing away: whatever the position, some
   * draws put a correct answer there, and some put a wrong one there when
   * the entry has wrong answers.
   */
  lemma AnswerPositionOpen(e: QuizEntry, p: nat, k: nat)
    requires p < |e.correct| + |e.wrong|
    ensures |e.correct| > 0 ==> exists rand: Oracle :: Shuffled(AnswerButtons(e), rand, k)[p].tag == CorrectTag
    ensures |e.wrong| > 0 ==> exists rand: Oracle :: Shuffled(AnswerButtons(e), rand, k)[p].tag == WrongTag
  {
    var buttons := AnswerButtons(e);
    if |e.correct| > 0 {
      ShuffledReaches(buttons, p, 0, k);
      assert buttons[0] == Tagged(e.correct, CorrectTag)[0];
    }
    if |e.wrong| > 0 {
      var q := |e.correct|;
      ShuffledReaches(buttons, p, q, k);
      assert buttons[q] == Tagged(e.wrong, WrongTag)[0];
    }
  }

  /**
   * The `guess` options: four buttons labelled with the draws k .. k + 3, in
   * that order, the one at the index drawn from k + 4 tagged "correct" and
   * the rest "wrong".
   */
  function GuessChoices(rand: Oracle, k: nat): (r: seq<Choice>)
    ensures |r| == 4
  {
    var c := Pick(rand(k + 4), 4);
    seq(4, i requires 0 <= i < 4 => Choice(Decimal(rand(k + i)), if i == c then CorrectTag else WrongTag))
  }

  /**
   * The drawn guess button, and only it, is tagged "correct"; the other
   * three are tagged "wrong".
   */
  lemma GuessChoicesTags(rand: Oracle, k: nat)
    ensures |GuessChoices(rand, k)| == 4
    ensures forall i :: 0 <= i < 4 ==>
      (GuessChoices(rand, k)[i].tag == CorrectTag <==> i == Pick(rand(k + 4), 4))
    ensures forall i :: 0 <= i < 4 ==>
      (GuessChoices(rand, k)[i].tag == WrongTag <==> i != Pick(rand(k + 4), 4))
  {
    assert CorrectTag != WrongTag by {
      assert CorrectTag[0] != WrongTag[0];
    }
  }

  /**
   * The guess tags are four "wrong" tags with the drawn one overwritten: one
   * "correct" tag and three "wrong" ones.
   */
  lemma GuessTagCounts(rand: Oracle, k: nat)
    ensures Tags(GuessChoices(rand, k)) == Repeat(WrongTag, 4)[Pick(rand(k + 4), 4) := CorrectTag]
    ensures multiset(Tags(GuessChoices(rand, k)))[CorrectTag] == 1
    ensures multiset(Tags(GuessChoices(rand, k)))[WrongTag] == 3
  {
    var c := Pick(rand(k + 4), 4);
    var tags := Tags(GuessChoices(rand, k));
    var base := Repeat(WrongTag, 4);
    GuessChoicesTags(rand, k);
    forall i | 0 <= i < 4
      ensures tags[i] == base[c := CorrectTag][i]
    {
      RepeatAt(WrongTag, 4, i);
      assert tags[i] == GuessChoices(rand, k)[i].tag;
    }
    assert tags == base[c := CorrectTag];
    RepeatAt(WrongTag, 4, c);
    RepeatCount(WrongTag, CorrectTag, 4);
    RepeatCount(WrongTag, WrongTag, 4);
    assert CorrectTag != WrongTag by {
      assert CorrectTag[0] != WrongTag[0];
    }
  }

  /**
   * `guess` builds four "wrong" buttons, lets `selectRandom` pick one and
   * overwrites that button's callback data with "correct".
   */
  method GuessOptions(rand: Oracle, k: nat) returns (answers: seq<Choice>)
    ensures answers == GuessChoices(rand, k)
  {
    var buttons := new Choice[4](i requires 0 <= i < 4 => Choice(Decimal(rand(k + i)), WrongTag));
    var c := Pick(rand(k + 4), 4);
    buttons[c] := buttons[c].(tag := CorrectTag);
    answers := buttons[..];
  }
}
