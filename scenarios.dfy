/** Three complete runs of the flow, driven through the controller's own methods with
    the server's responses passed in: a first-time participant going from welcome to a
    final thank-you screen, a question screen refusing an incomplete submission, and a
    returning participant confirming on the cheating screen. */
module Scenarios {
  import opened JsValue
  import opened SurveyTask
  import opened Controller
  import QuestionScreen
  import WelcomeScreen

  function NoBody(questions: map<string, Question>, pleaseAnswer: Option<string>): TaskBody {
    TaskBody(None, None, questions, None, pleaseAnswer, None, None, None, None, None)
  }

  /** A welcome task pointing at task 1, with no consent section. */
  function WelcomeTask(): Task {
    Task(Some(Str("welcome")), Some(Num(1)), Some(Bool(false)), None, None, NoBody(map[], None))
  }

  /** The closing thank-you task: no successor, and the guard goes. */
  function LastThankyouTask(): Task {
    Task(Some(Str("thankyou")), None, None, None, Some(Bool(true)), NoBody(map[], None))
  }

  function Radio(text: string): Question {
    Question(text, Some(Str("check_vertical")), ["yes", "no"], None, None)
  }

  /** Two vertical questions, `q1` and `q2`, leading to task 3. */
  function QuestionTask(): Task {
    Task(Some(Str("Q")), Some(Num(3)), None, None, None,
         NoBody(map["q1" := Radio("first"), "q2" := Radio("second")], Some("Please answer everything")))
  }

  /** A page load in a browser without the cookie: the first task is requested. */
  method FreshStart() returns (f: Flow)
    ensures fresh(f) && f.Valid()
    ensures f.log == [InstallLeaveGuard, Toast(ReloadToast), LoadInitial]
    ensures f.iter == 0 && f.cookie == "" && f.leaveGuard && f.task == NullTask
  {
    f := new Flow("");
    f.Init();
  }

  /** The server answers the first request with a user id and the welcome task. */
  method ReceiveWelcome(f: Flow, pick: nat -> nat)
    requires f.Valid() && f.iter == 0
    modifies f
    ensures f.Valid() && f.iter == 1 && f.userid == Num(7) && f.task == Loaded(WelcomeTask())
    ensures f.log == old(f.log) + [Render(WelcomeKind)]
    ensures f.screen.WelcomeOn? && f.screen.w.button == Button(SubmitFn) && !f.screen.w.consent.showBottom
    ensures !f.screen.w.consent.hasDataProtection && !f.screen.w.consent.hasAgreement
    ensures f.cookie == old(f.cookie) && f.leaveGuard == old(f.leaveGuard)
  {
    var welcome := WelcomeTask();
    assert RouteOf(welcome.tasktype) == ToWelcome;
    f.OnTaskLoaded(WithUser(Num(7), Loaded(welcome)), pick);
  }

  /** With no consent section, the welcome screen's button submits without a payload,
      and the flow asks for task 1 under the user's id. */
  method ConfirmWelcome(f: Flow)
    requires f.Valid() && f.task == Loaded(WelcomeTask())
    requires f.screen.WelcomeOn? && f.screen.w.button == Button(SubmitFn)
    requires !f.screen.w.consent.hasDataProtection && !f.screen.w.consent.hasAgreement
    modifies f
    ensures f.Valid() && f.iter == old(f.iter) && f.userid == old(f.userid) && f.task == old(f.task)
    ensures f.log == old(f.log) + [SetCookieAgreed, LoadUserTask(f.userid, Num(1), NoPayload)]
    ensures f.cookie == CookieAgreed && f.currentTaskId == Num(1) && f.leaveGuard == old(f.leaveGuard)
  {
    assert ClickAction(f.screen) == Request(CallSubmit(NoPayload));
    assert Advances(f.task);
    var thrown := f.ClickNext();
  }

  /** The final thank-you task arrives: it renders, submits by itself, asks for nothing
      more and releases the leave-page guard. */
  method ReceiveLastThankyou(f: Flow, pick: nat -> nat)
    requires f.Valid() && f.iter < Ceiling
    modifies f
    ensures f.Valid()
    ensures f.log == old(f.log) + [Render(ThankyouKind), SetCookieAgreed, ReleaseLeaveGuard]
    ensures f.cookie == CookieAgreed && !f.leaveGuard && f.currentTaskId == old(f.currentTaskId)
  {
    var last := LastThankyouTask();
    assert RouteOf(last.tasktype) == ToThankyou && !Advances(Loaded(last));
    f.OnTaskLoaded(TaskOnly(Loaded(last)), pick);
  }

  /** A fresh browser: the first task is requested, the welcome screen is confirmed and
      submitted without a payload under the user id the server assigned, the final
      thank-you screen submits by itself and asks for nothing more. The cookie now
      holds `"agreed"`, so the next page load of the same browser shows the cheating
      screen. */
  method FirstParticipation(pick: nat -> nat) returns (f: Flow, again: Flow)
    ensures f.log == [InstallLeaveGuard, Toast(ReloadToast), LoadInitial, Render(WelcomeKind),
                      SetCookieAgreed, LoadUserTask(Num(7), Num(1), NoPayload),
                      Render(ThankyouKind), SetCookieAgreed, ReleaseLeaveGuard]
    ensures f.cookie == CookieAgreed && !f.leaveGuard && f.currentTaskId == Num(1)
    ensures again.screen.CheatingOn? && Loads(again.log) == 0
  {
    f := FreshStart();
    ReceiveWelcome(f, pick);
    ConfirmWelcome(f);
    ReceiveLastThankyou(f, pick);
    again := new Flow(f.cookie);
    again.Init();
    assert again.log == InitEffects(CookieAgreed);
    InitLoadsIffNotCheating(CookieAgreed);
  }

  /** The server answers with the question task. */
  method ReceiveQuestions(f: Flow, pick: nat -> nat) returns (q: QuestionScreen.QScreen)
    requires f.Valid() && f.iter < Ceiling
    modifies f
    ensures f.Valid() && f.screen == QuestionsOn(q) && fresh(q) && f.task == Loaded(QuestionTask())
    ensures f.log == old(f.log) + [Render(QuestionKind)] && f.userid == Num(0)
    ensures q.Valid() && q.questions == QuestionTask().taskbody.questions && q.answers == map[]
    ensures q.button == Button(SubmitFn) && q.msgPleaseAnswer == "Please answer everything"
  {
    var t := QuestionTask();
    assert RouteOf(t.tasktype) == ToQuestions;
    f.OnTaskLoaded(WithUser(Num(0), Loaded(t)), pick);
    q := f.screen.q;
  }

  /** Answering `q1` alone and clicking shows the reminder and asks for nothing. */
  method AnswerFirstOnly(f: Flow, q: QuestionScreen.QScreen)
    requires f.Valid() && f.screen == QuestionsOn(q) && f.task == Loaded(QuestionTask())
    requires q.Valid() && q.questions == QuestionTask().taskbody.questions && q.answers == map[]
    requires q.button == Button(SubmitFn) && q.msgPleaseAnswer == "Please answer everything"
    modifies f, q
    ensures f.Valid() && f.screen == old(f.screen) && f.task == old(f.task) && f.userid == old(f.userid)
    ensures q.answers == map["q1" := "yes"]
    ensures f.log == old(f.log) + [Toast("Please answer everything")]
  {
    assert QuestionScreen.Choices(QuestionScreen.ShowQ(q.questions["q1"])) == ["yes", "no"];
    q.ChooseOption("q1", "yes");
    assert "q2" in q.questions && "q2" !in q.answers;
    assert ClickAction(f.screen) == Request(ShowToast("Please answer everything"));
    var thrown := f.ClickNext();
  }

  /** Answering `q2` as well and clicking submits without a payload and asks for task 3. */
  method AnswerSecond(f: Flow, q: QuestionScreen.QScreen)
    requires f.Valid() && f.screen == QuestionsOn(q) && f.task == Loaded(QuestionTask())
    requires q.Valid() && q.questions == QuestionTask().taskbody.questions && q.answers == map["q1" := "yes"]
    requires q.button == Button(SubmitFn)
    modifies f, q
    ensures f.userid == old(f.userid)
    ensures f.log == old(f.log) + [SetCookieAgreed, LoadUserTask(f.userid, Num(3), NoPayload)]
  {
    assert QuestionScreen.Choices(QuestionScreen.ShowQ(q.questions["q2"])) == ["yes", "no"];
    q.ChooseOption("q2", "no");
    assert q.questions.Keys <= q.answers.Keys;
    assert ClickAction(f.screen) == Request(CallSubmit(NoPayload));
    assert Advances(f.task);
    var thrown := f.ClickNext();
  }

  /** With only `q1` answered, the question screen shows the task's reminder and the
      flow asks for nothing; once `q2` is answered too, the click submits and asks for
      task 3. */
  method IncompleteQuestions(pick: nat -> nat) returns (f: Flow)
    ensures f.log == [InstallLeaveGuard, Toast(ReloadToast), LoadInitial, Render(QuestionKind),
                      Toast("Please answer everything"),
                      SetCookieAgreed, LoadUserTask(Num(0), Num(3), NoPayload)]
  {
    f := FreshStart();
    var q := ReceiveQuestions(f, pick);
    AnswerFirstOnly(f, q);
    AnswerSecond(f, q);
  }

  /** A browser that already holds `"agreed"`: the cheating screen comes up without a
      request, and confirming on it asks for the first task exactly once, without
      touching the cookie. */
  method ReturningParticipant() returns (f: Flow)
    ensures f.screen.CheatingOn? && f.cookie == CookieAgreed
    ensures f.log == [InstallLeaveGuard, Toast(ReloadToast), Render(CheatingKind), LoadInitial]
  {
    f := new Flow(CookieAgreed);
    f.Init();
    var thrown := f.ClickNext();
  }

  /** A welcome task pointing at task 1 that asks for the participant's agreement. */
  function ConsentTask(): Task {
    Task(Some(Str("welcome")), Some(Num(1)), None, None, None,
         TaskBody(None, None, map[], None, None, None, Some("I agree to take part"), None, None, None))
  }

  /** The server answers the first request with a user id and the consent task. */
  method ReceiveConsentWelcome(f: Flow, pick: nat -> nat) returns (w: WelcomeScreen.Welcome)
    requires f.Valid() && f.iter == 0
    modifies f
    ensures f.Valid() && f.screen == WelcomeOn(w) && f.userid == Num(7) && f.task == Loaded(ConsentTask())
    ensures f.log == old(f.log) + [Render(WelcomeKind)]
    ensures fresh(w) && w.Unticked() && w.button == Button(SubmitFn)
    ensures w.consent.hasAgreement && !w.consent.hasDataProtection
    ensures w.consent.msgAgreement == WelcomeScreen.DefaultPleaseCheckAgreementMsg
  {
    var t := ConsentTask();
    assert RouteOf(t.tasktype) == ToWelcome;
    f.OnTaskLoaded(WithUser(Num(7), Loaded(t)), pick);
    w := f.screen.w;
  }

  /** Clicking before the box is ticked shows the agreement reminder and asks for nothing. */
  method RemindAgreement(f: Flow, w: WelcomeScreen.Welcome)
    requires f.Valid() && f.screen == WelcomeOn(w) && w.Unticked() && w.button == Button(SubmitFn)
    requires w.consent.hasAgreement && !w.consent.hasDataProtection
    requires w.consent.msgAgreement == WelcomeScreen.DefaultPleaseCheckAgreementMsg
    modifies f
    ensures f.Valid() && f.screen == old(f.screen) && f.task == old(f.task) && f.userid == old(f.userid)
    ensures f.log == old(f.log) + [Toast(WelcomeScreen.DefaultPleaseCheckAgreementMsg)]
  {
    assert ClickAction(f.screen) == Request(ShowToast(WelcomeScreen.DefaultPleaseCheckAgreementMsg));
    var thrown := f.ClickNext();
  }

  /** Ticking the agreement through its label lets the click submit and ask for task 1. */
  method AgreeAndConfirm(f: Flow, w: WelcomeScreen.Welcome)
    requires f.Valid() && f.screen == WelcomeOn(w) && f.task == Loaded(ConsentTask())
    requires w.Unticked() && w.button == Button(SubmitFn) && w.consent.hasAgreement && !w.consent.hasDataProtection
    modifies f, w
    ensures w.agreementChecked && f.userid == old(f.userid)
    ensures f.log == old(f.log) + [SetCookieAgreed, LoadUserTask(f.userid, Num(1), NoPayload)]
  {
    w.ClickAgreementLabel();
    assert ClickAction(f.screen) == Request(CallSubmit(NoPayload));
    assert Advances(f.task);
    var thrown := f.ClickNext();
  }

  /** A welcome task with an agreement section: the first click only reminds, and after
      the box is ticked the same click submits under the user's id. */
  method ConsentRequired(pick: nat -> nat) returns (f: Flow)
    ensures f.log == [InstallLeaveGuard, Toast(ReloadToast), LoadInitial, Render(WelcomeKind),
                      Toast(WelcomeScreen.DefaultPleaseCheckAgreementMsg),
                      SetCookieAgreed, LoadUserTask(Num(7), Num(1), NoPayload)]
  {
    f := FreshStart();
    var w := ReceiveConsentWelcome(f, pick);
    RemindAgreement(f, w);
    AgreeAndConfirm(f, w);
  }
}
