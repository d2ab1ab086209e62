/** The question screen: it lists the task's questions in `_qidlist` order, records the
    participant's choices in `_answers`, and lets the flow go on only when every question
    has an answer. */
module QuestionScreen {
  import opened JsValue
  import opened SurveyTask
  import opened Utils

  const DefaultPleaseAnswerMsg := "Bitte beantworten Sie alle Fragen!"

  /** `a <= b` in the string order of `Array.prototype.sort` without a comparator:
      character by character, a proper prefix first. */
  predicate LexLe(a: string, b: string)
    decreases |a|
  {
    |a| == 0 || (|b| > 0 && (a[0] < b[0] || (a[0] == b[0] && LexLe(a[1..], b[1..]))))
  }

  lemma {:induction false} LexLeTotal(a: string, b: string)
    ensures LexLe(a, b) || LexLe(b, a)
    decreases |a|
  {
    if |a| > 0 && |b| > 0 && a[0] == b[0] {
      LexLeTotal(a[1..], b[1..]);
    }
  }

  lemma {:induction false} LexLeAntisymmetric(a: string, b: string)
    requires LexLe(a, b) && LexLe(b, a)
    ensures a == b
    decreases |a|
  {
    if |a| > 0 {
      LexLeAntisymmetric(a[1..], b[1..]);
      assert a == [a[0]] + a[1..] && b == [b[0]] + b[1..];
    }
  }

  lemma {:induction false} LexLeTransitive(a: string, b: string, c: string)
    requires LexLe(a, b) && LexLe(b, c)
    ensures LexLe(a, c)
    decreases |a|
  {
    if |a| > 0 && a[0] == b[0] && b[0] == c[0] {
      LexLeTransitive(a[1..], b[1..], c[1..]);
    }
  }

  /** `m` comes first among the strings of `s`. */
  predicate IsLeast(m: string, s: set<string>) {
    m in s && forall y :: y in s ==> LexLe(m, y)
  }

  lemma {:induction false} LeastExists(s: set<string>)
    requires s != {}
    ensures exists m :: IsLeast(m, s)
    decreases |s|
  {
    var x :| x in s;
    if s != {x} {
      LeastExists(s - {x});
      var m :| IsLeast(m, s - {x});
      LexLeTotal(x, m);
      if LexLe(x, m) {
        forall y | y in s ensures LexLe(x, y) {
          if y != x { LexLeTransitive(x, m, y); }
          else { LexLeTotal(x, x); }
        }
        assert IsLeast(x, s);
      } else {
        assert IsLeast(m, s);
      }
    } else {
      LexLeTotal(x, x);
      assert IsLeast(x, s);
    }
  }

  lemma LeastUnique(s: set<string>)
    ensures forall m1, m2 :: IsLeast(m1, s) && IsLeast(m2, s) ==> m1 == m2
  {
    forall m1, m2 | IsLeast(m1, s) && IsLeast(m2, s) ensures m1 == m2 {
      LexLeAntisymmetric(m1, m2);
    }
  }

  /** `Object.keys(questions)` followed by `.sort()`: the keys in ascending order, each
      exactly once. The order `Object.keys` produces does not matter, since sorting
      determines the result from the set of keys alone. */
  function SortedKeys(s: set<string>): (r: seq<string>)
    ensures |r| == |s|
    ensures forall x :: x in r <==> x in s
    ensures forall i, j :: 0 <= i < j < |r| ==> LexLe(r[i], r[j]) && r[i] != r[j]
    decreases |s|
  {
    if s == {} then []
    else
      LeastExists(s);
      LeastUnique(s);
      var m :| IsLeast(m, s);
      [m] + SortedKeys(s - {m})
  }

  /** The order in which the screen lists the questions. */
  function QidOrder(questions: map<string, Question>, shuffle: Option<Value>, pick: nat -> nat): seq<string>
  {
    var keys := SortedKeys(questions.Keys);
    if Truthy(shuffle) then Shuffled(keys, pick) else keys
  }

  /** Every question is listed, and none twice, whether or not the list was shuffled. */
  lemma QidOrderIsPermutation(questions: map<string, Question>, shuffle: Option<Value>, pick: nat -> nat)
    ensures |QidOrder(questions, shuffle, pick)| == |questions|
    ensures forall x :: x in QidOrder(questions, shuffle, pick) <==> x in questions
  {
    var keys := SortedKeys(questions.Keys);
    var r := QidOrder(questions, shuffle, pick);
    ShuffledIsPermutation(keys, pick);
    assert multiset(r) == multiset(keys);
    forall x ensures x in r <==> x in keys {
      assert x in r <==> x in multiset(r);
      assert x in keys <==> x in multiset(keys);
    }
  }

  /** Every id listed in `ids` has an answer. */
  predicate AllAnswered(ids: seq<string>, answers: map<string, string>) {
    forall i :: 0 <= i < |ids| ==> ids[i] in answers
  }

  /** Completeness does not depend on the order in which the ids are listed. */
  lemma CompletenessIgnoresOrder(a: seq<string>, b: seq<string>, answers: map<string, string>)
    requires multiset(a) == multiset(b)
    ensures AllAnswered(a, answers) <==> AllAnswered(b, answers)
  {
    forall x ensures x in a <==> x in b {
      assert x in a <==> x in multiset(a);
      assert x in b <==> x in multiset(b);
    }
    if AllAnswered(a, answers) {
      forall i | 0 <= i < |b| ensures b[i] in answers {
        assert b[i] in a;
      }
    }
    if AllAnswered(b, answers) {
      forall i | 0 <= i < |a| ensures a[i] in answers {
        assert a[i] in b;
      }
    }
  }

  /** The listed order of a question task is complete exactly when every question id is a
      key of the answers; extra answer keys do not matter, and no questions means complete. */
  lemma {:induction false} CompleteIffAllKeysAnswered(questions: map<string, Question>, shuffle: Option<Value>,
                                                      pick: nat -> nat, answers: map<string, string>)
    ensures AllAnswered(QidOrder(questions, shuffle, pick), answers) <==> questions.Keys <= answers.Keys
  {
    var r := QidOrder(questions, shuffle, pick);
    QidOrderIsPermutation(questions, shuffle, pick);
    if AllAnswered(r, answers) {
      forall x | x in questions ensures x in answers {
        assert x in r;
        var i :| 0 <= i < |r| && r[i] == x;
      }
    } else {
      var i :| 0 <= i < |r| && r[i] !in answers;
      assert r[i] in questions;
    }
  }

  /** What `showQ` builds for one question, as far as answering is concerned. */
  datatype QuestionView =
    | Horizontal(options: seq<string>, showDividers: bool, showOptionLabels: bool)
    | Vertical(options: seq<string>)
    | TextOnly(text: string)

  /** `HorizontalRadioQ`'s `_showDividers` and `_showOptionLabels`: dividers off and
      option labels on, unless the question has the property, whose truthiness then
      decides. */
  function HorizontalFlags(q: Question): (r: (bool, bool))
    ensures r.0 == (q.showDividers.Some? && Truthy(q.showDividers))
    ensures r.1 == (q.showOptionLabels.None? || Truthy(q.showOptionLabels))
  {
    var dividers := Override(q.showDividers, Bool(false));
    var labels := Override(q.showOptionLabels, Bool(true));
    (Truthy(Some(dividers)), Truthy(Some(labels)))
  }

  /** `showQ`'s switch on `QType`: the two radio kinds take the question's options, any
      other type is shown as text and offers nothing to answer. */
  function ShowQ(q: Question): (v: QuestionView)
    ensures v.Horizontal? <==> q.qtype == Some(Str("check_horizontal"))
    ensures v.Vertical? <==> q.qtype == Some(Str("check_vertical"))
    ensures v.TextOnly? ==> v.text == q.text
    ensures !v.TextOnly? ==> v.options == q.options
    ensures v.Horizontal? ==> (v.showDividers, v.showOptionLabels) == HorizontalFlags(q)
  {
    if q.qtype == Some(Str("check_horizontal")) then
      var flags := HorizontalFlags(q);
      Horizontal(q.options, flags.0, flags.1)
    else if q.qtype == Some(Str("check_vertical")) then
      Vertical(q.options)
    else
      TextOnly(q.text)
  }

  /** The radio values a view offers; a text-only question offers none. */
  function Choices(v: QuestionView): seq<string> {
    if v.TextOnly? then [] else v.options
  }

  /** What `showQ` builds for each id of `ids`, in that order. */
  function ViewsOf(questions: map<string, Question>, ids: seq<string>): (r: seq<QuestionView>)
    requires forall i :: 0 <= i < |ids| ==> ids[i] in questions
    ensures |r| == |ids|
    ensures forall i :: 0 <= i < |ids| ==> r[i] == ShowQ(questions[ids[i]])
  {
    seq(|ids|, i requires 0 <= i < |ids| => ShowQ(questions[ids[i]]))
  }

  /** `_qidlist`'s construction: `Object.keys`, `.sort()` in place, then
      `utils.shuffleArray` in place when `shuffle_questions` is present and truthy. */
  method BuildQidList(questions: map<string, Question>, shuffle: Option<Value>, pick: nat -> nat)
    returns (ids: seq<string>)
    ensures ids == QidOrder(questions, shuffle, pick)
  {
    var keys := SortedKeys(questions.Keys);
    var list := new string[|keys|](i requires 0 <= i < |keys| => keys[i]);
    assert list[..] == keys;
    if Truthy(shuffle) {
      ShuffleArray(list, pick);
    }
    ids := list[..];
  }

  class QScreen {
    const questions: map<string, Question>
    /** `_qidlist`, in display order. */
    const qidlist: seq<string>
    /** What `showQ` built for `qidlist[i]`, in the same order. */
    const views: seq<QuestionView>
    /** `_msgPleaseAnswer`. */
    const msgPleaseAnswer: string
    const button: NextButton
    /** `_answers`. */
    var answers: map<string, string>

    ghost predicate Valid() {
      && |qidlist| == |questions|
      && (forall x :: x in qidlist <==> x in questions)
      && |views| == |qidlist|
      && forall i :: 0 <= i < |qidlist| ==> qidlist[i] in questions && views[i] == ShowQ(questions[qidlist[i]])
    }

    /** `show_qscreen`: sort the question ids, shuffle them in place when
        `shuffle_questions` is truthy, pick the reminder text, build one view per question
        and a next button that calls `_submit`. */
    constructor (t: Task, pick: nat -> nat)
      ensures Valid()
      ensures questions == t.taskbody.questions
      ensures qidlist == QidOrder(t.taskbody.questions, t.taskbody.shuffleQuestions, pick)
      ensures msgPleaseAnswer == Override(t.taskbody.pleaseAnswerMsg, DefaultPleaseAnswerMsg)
      ensures button == MakeNextButton(t.nextButtonHide, true)
      ensures answers == map[]
    {
      var body := t.taskbody;
      var ids := BuildQidList(body.questions, body.shuffleQuestions, pick);
      QidOrderIsPermutation(body.questions, body.shuffleQuestions, pick);
      questions := body.questions;
      qidlist := ids;
      views := ViewsOf(body.questions, ids);
      msgPleaseAnswer := Override(body.pleaseAnswerMsg, DefaultPleaseAnswerMsg);
      button := MakeNextButton(t.nextButtonHide, true);
      answers := map[];
    }

    /** `_onAnswer`: last write wins for `key`, every other key keeps its answer. */
    method OnAnswer(key: string, value: string)
      modifies this`answers
      ensures answers == old(answers)[key := value]
    {
      answers := answers[key := value];
    }

    /** The `change` handler of a radio button, and the click handler of a vertical
        option's row: both record that option for that question. */
    method ChooseOption(qid: string, option: string)
      requires qid in questions && option in Choices(ShowQ(questions[qid]))
      modifies this`answers
      ensures answers == old(answers)[qid := option]
    {
      OnAnswer(qid, option);
    }

    /** `_areAllQsAnswered`: the loop over `_qidlist`. On a properly built screen this
        is the same as every question id having an answer. */
    method AreAllQsAnswered() returns (ret: bool)
      ensures ret <==> AllAnswered(qidlist, answers)
      ensures Valid() ==> (ret <==> questions.Keys <= answers.Keys)
    {
      ret := true;
      for k := 0 to |qidlist|
        invariant ret <==> forall i :: 0 <= i < k ==> qidlist[i] in answers
      {
        if qidlist[k] !in answers {
          ret := false;
        }
      }
      if ret && Valid() {
        forall x | x in questions ensures x in answers {
          var i :| 0 <= i < |qidlist| && qidlist[i] == x;
        }
      }
    }

    /** What `_submit` does in the current state. */
    ghost function Decision(): ScreenRequest
      reads this
    {
      if AllAnswered(qidlist, answers) then CallSubmit(NoPayload) else ShowToast(msgPleaseAnswer)
    }

    /** `_submit`: with a listed question unanswered, show the reminder and stop;
        otherwise call `submit()` without a payload. */
    method Submit() returns (r: ScreenRequest)
      ensures r.CallSubmit? <==> AllAnswered(qidlist, answers)
      ensures Valid() ==> (r.CallSubmit? <==> questions.Keys <= answers.Keys)
      ensures r.CallSubmit? ==> r.payload == NoPayload
      ensures r.ShowToast? ==> r.msg == msgPleaseAnswer
      ensures r == Decision()
    {
      var allQfinished := AreAllQsAnswered();
      if !allQfinished {
        return ShowToast(msgPleaseAnswer);
      }
      return CallSubmit(NoPayload);
    }
  }
}
