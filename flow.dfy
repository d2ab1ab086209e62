/** The flow controller of `frontend/index.js` and the thank-you screen it drives. One
    `Flow` object is one page load: it holds the page's `state` record, the browser's
    `SYCL2023` cookie, the leave-page guard and the mounted screen. Requests to the
    server, renders, toasts and cookie writes are appended to a ghost log instead of
    being performed; a server response comes back as a call of `OnTaskLoaded`. */
module Controller {
  import opened JsValue
  import opened SurveyTask
  import opened Utils
  import QuestionScreen
  import WelcomeScreen

  /** `run`'s safety net. */
  const Ceiling := 100
  /** What every `submit` writes into the `SYCL2023` cookie. */
  const CookieAgreed := "agreed"
  const ReloadToast := "Task template reloaded. Disable this before going into production!"

  datatype ScreenKind = WelcomeKind | QuestionKind | ThankyouKind | CheatingKind

  /** What the controller does outside the page's own state. */
  datatype Effect =
    | LoadInitial                                                   // `loadInitialTask`
    | LoadUserTask(userid: Value, taskId: Value, payload: Payload)  // `loadUserTask`
    | Render(kind: ScreenKind)
    | Toast(msg: string)                                            // `utils.showToast`
    | SetCookieAgreed                                               // `setCookie("SYCL2023", "agreed", 3)`
    | InstallLeaveGuard                                             // `window.onbeforeunload = ...`
    | ReleaseLeaveGuard                                             // `window.onbeforeunload = null`

  /** A render done by `run`'s dispatch; the cheating screen is rendered by `init`. */
  predicate IsRunRender(e: Effect) {
    e.Render? && e.kind != CheatingKind
  }

  predicate IsLoad(e: Effect) {
    e.LoadInitial? || e.LoadUserTask?
  }

  function Renders(log: seq<Effect>): (n: nat)
    ensures n <= |log|
  {
    if log == [] then 0 else (if IsRunRender(log[0]) then 1 else 0) + Renders(log[1..])
  }

  function Loads(log: seq<Effect>): (n: nat)
    ensures n <= |log|
  {
    if log == [] then 0 else (if IsLoad(log[0]) then 1 else 0) + Loads(log[1..])
  }

  /** Both counts add up over a log written in two parts. */
  lemma {:induction false} CountsAppend(a: seq<Effect>, b: seq<Effect>)
    ensures Renders(a + b) == Renders(a) + Renders(b)
    ensures Loads(a + b) == Loads(a) + Loads(b)
    decreases |a|
  {
    if a == [] {
      assert a + b == b;
    } else {
      assert (a + b)[0] == a[0];
      assert (a + b)[1..] == a[1..] + b;
      CountsAppend(a[1..], b);
    }
  }

  lemma AppendRegroup(a: seq<Effect>, b: seq<Effect>, c: seq<Effect>, d: seq<Effect>)
    ensures a + b + c + d == a + (b + c + d)
  {
  }

  /** `init`'s test of the cookie: a returning participant has a value other than `""`
      and `"true"`. */
  predicate RoutesToCheating(cookie: string) {
    cookie != "" && cookie != "true"
  }

  /** Once any `submit` has written `"agreed"`, the next page load of the same browser
      shows the cheating screen: neither the empty cookie nor `"true"` gets through. */
  lemma ReplayGuard(cookie: string)
    ensures RoutesToCheating(cookie) <==> cookie !in {"", "true"}
    ensures RoutesToCheating(CookieAgreed)
  {
  }

  /** What `init` does outside the page's state, given the cookie it reads. */
  function InitEffects(cookie: string): (r: seq<Effect>)
    ensures |r| == 3 && r[..2] == [InstallLeaveGuard, Toast(ReloadToast)]
    ensures RoutesToCheating(cookie) <==> Render(CheatingKind) in r
  {
    [InstallLeaveGuard, Toast(ReloadToast)] + if RoutesToCheating(cookie) then [Render(CheatingKind)] else [LoadInitial]
  }

  /** `init` never renders through `run`; it asks for the first task exactly when the
      cookie does not send the participant to the cheating screen. */
  lemma InitLoadsIffNotCheating(cookie: string)
    ensures Renders(InitEffects(cookie)) == 0
    ensures Loads(InitEffects(cookie)) == if RoutesToCheating(cookie) then 0 else 1
  {
    var r := InitEffects(cookie);
    assert r == [r[0]] + [r[1]] + [r[2]];
    CountsAppend([r[0]], [r[1]]);
    CountsAppend([r[0]] + [r[1]], [r[2]]);
  }

  /** `run`'s `switch (ttype)`. */
  datatype Route = ToWelcome | ToThankyou | ToQuestions | NoScreen

  function RouteOf(tasktype: Option<Value>): (r: Route)
    ensures r == ToWelcome <==> tasktype == Some(Str("welcome"))
    ensures r == ToThankyou <==> tasktype == Some(Str("thankyou"))
    ensures r == ToQuestions <==> tasktype == Some(Str("Q"))
  {
    match tasktype
    case Some(Str(s)) =>
      if s == "welcome" then ToWelcome
      else if s == "thankyou" then ToThankyou
      else if s == "Q" then ToQuestions
      else NoScreen
    case _ => NoScreen
  }

  /** `submit` goes on to another task: the task is an object, `final` is not `true` and
      `next_task` is neither `null` nor missing. */
  predicate Advances(s: Slot) {
    s.Loaded? && !IsTrue(s.task.final) && !IsNullish(s.task.nextTask)
  }

  /** What one `submit(payload)` does outside the page's state. */
  function SubmitEffects(s: Slot, userid: Value, payload: Payload): (r: seq<Effect>)
    ensures 1 <= |r| <= 2 && r[0] == SetCookieAgreed
    ensures |r| == 2 <==> Advances(s)
    ensures |r| == 2 ==> r[1] == LoadUserTask(userid, s.task.nextTask.value, payload)
  {
    [SetCookieAgreed]
      + if Advances(s) then [LoadUserTask(userid, s.task.nextTask.value, payload)] else []
  }

  /** Every `submit` writes the cookie first, also on a terminal task; it asks for exactly
      one task when it goes on and for none when the task is final or has no successor,
      and it renders nothing by itself. */
  lemma SubmitLoadsOnceIffAdvances(s: Slot, userid: Value, payload: Payload)
    ensures SubmitEffects(s, userid, payload)[0] == SetCookieAgreed
    ensures Loads(SubmitEffects(s, userid, payload)) == if Advances(s) then 1 else 0
    ensures Renders(SubmitEffects(s, userid, payload)) == 0
    ensures s.Loaded? && (IsTrue(s.task.final) || IsNullish(s.task.nextTask)) ==>
              Loads(SubmitEffects(s, userid, payload)) == 0
  {
    var r := SubmitEffects(s, userid, payload);
    if Advances(s) {
      assert r == [r[0]] + [r[1]];
      CountsAppend([r[0]], [r[1]]);
    }
  }

  /** `run` gets past its safety net and finds a task object. */
  predicate Dispatches(iter0: nat, s: Slot) {
    iter0 < Ceiling && s.Loaded?
  }

  /** What one `run` does outside the page's state, when `state.iter` was `iter0`. */
  function RunEffects(iter0: nat, s: Slot, userid: Value): seq<Effect> {
    if !Dispatches(iter0, s) then []
    else
      match RouteOf(s.task.tasktype)
      case ToWelcome => [Render(WelcomeKind)]
      case ToQuestions => [Render(QuestionKind)]
      case ToThankyou => ThankyouEffects(s.task, userid)
      case NoScreen => []
  }

  /** `show_thankyou`: render, submit `{"finished": true}`, then release the guard
      when `final_task === true`. */
  function ThankyouEffects(t: Task, userid: Value): seq<Effect> {
    [Render(ThankyouKind)] + SubmitEffects(Loaded(t), userid, Finished)
      + if IsTrue(t.finalTask) then [ReleaseLeaveGuard] else []
  }

  /** One `run` renders at most one screen, none once the counter has passed the ceiling
      or when the task is not an object, and none for a task type other than
      `"welcome"`, `"thankyou"` and `"Q"` (`"cheating"` among them). */
  lemma RunRendersAtMostOne(iter0: nat, s: Slot, userid: Value)
    ensures Renders(RunEffects(iter0, s, userid)) <= 1
    ensures Renders(RunEffects(iter0, s, userid)) == 1 <==>
              Dispatches(iter0, s) && RouteOf(s.task.tasktype) != NoScreen
    ensures iter0 >= Ceiling ==> RunEffects(iter0, s, userid) == []
    ensures s.Loaded? && s.task.tasktype == Some(Str("cheating")) ==> RunEffects(iter0, s, userid) == []
  {
    if Dispatches(iter0, s) && RouteOf(s.task.tasktype) == ToThankyou {
      var t := s.task;
      var sub := SubmitEffects(s, userid, Finished);
      var rel: seq<Effect> := if IsTrue(t.finalTask) then [ReleaseLeaveGuard] else [];
      SubmitLoadsOnceIffAdvances(s, userid, Finished);
      CountsAppend([Render(ThankyouKind)], sub);
      CountsAppend([Render(ThankyouKind)] + sub, rel);
    }
  }

  /** The thank-you screen submits on its own: with `final === true` or no `next_task`
      the flow ends without another request, otherwise it asks for `next_task` with
      `{"finished": true}` and nobody has to click; the guard is released after the
      submission, and only when `final_task === true`. */
  lemma ThankyouAutoSubmit(iter0: nat, t: Task, userid: Value)
    requires iter0 < Ceiling && RouteOf(t.tasktype) == ToThankyou
    ensures var r := RunEffects(iter0, Loaded(t), userid);
      && r[0] == Render(ThankyouKind)
      && r[1] == SetCookieAgreed
      && Loads(r) == (if Advances(Loaded(t)) then 1 else 0)
      && (Advances(Loaded(t)) ==> r[2] == LoadUserTask(userid, t.nextTask.value, Finished))
      && (ReleaseLeaveGuard in r <==> IsTrue(t.finalTask))
      && (IsTrue(t.finalTask) ==> r[|r| - 1] == ReleaseLeaveGuard)
  {
    var sub := SubmitEffects(Loaded(t), userid, Finished);
    var rel: seq<Effect> := if IsTrue(t.finalTask) then [ReleaseLeaveGuard] else [];
    var r := RunEffects(iter0, Loaded(t), userid);
    assert r == [Render(ThankyouKind)] + sub + rel;
    SubmitLoadsOnceIffAdvances(Loaded(t), userid, Finished);
    CountsAppend([Render(ThankyouKind)], sub);
    CountsAppend([Render(ThankyouKind)] + sub, rel);
    assert ReleaseLeaveGuard !in sub;
  }

  /** `run` called once for each `(userid, task)` of `steps`, the counter starting at `iter0`. */
  function RunsFrom(iter0: nat, steps: seq<(Value, Slot)>): seq<Effect>
    decreases |steps|
  {
    if steps == [] then [] else RunEffects(iter0, steps[0].1, steps[0].0) + RunsFrom(iter0 + 1, steps[1..])
  }

  /** However the responses go, `run` renders at most one screen per call and never more
      than the ceiling allows from where the counter stands. */
  lemma {:induction false} RunsFromRenderBound(iter0: nat, steps: seq<(Value, Slot)>)
    ensures Renders(RunsFrom(iter0, steps)) <= |steps|
    ensures Renders(RunsFrom(iter0, steps)) <= if iter0 >= Ceiling then 0 else Ceiling - iter0
    decreases |steps|
  {
    if steps != [] {
      RunRendersAtMostOne(iter0, steps[0].1, steps[0].0);
      RunsFromRenderBound(iter0 + 1, steps[1..]);
      CountsAppend(RunEffects(iter0, steps[0].1, steps[0].0), RunsFrom(iter0 + 1, steps[1..]));
    }
  }

  /** From a fresh page, at most 100 screens are ever rendered by `run`. */
  lemma AtMostCeilingScreens(steps: seq<(Value, Slot)>)
    ensures Renders(RunsFrom(0, steps)) <= Ceiling
  {
    RunsFromRenderBound(0, steps);
  }

  /** What is on the page. */
  datatype Mounted =
    | Blank
    | CheatingOn(button: NextButton)
    | WelcomeOn(w: WelcomeScreen.Welcome)
    | QuestionsOn(q: QuestionScreen.QScreen)
    | ThankyouOn(button: NextButton)

  /** The state of the page after `run`, as far as the page's own objects are concerned:
      unchanged when `run` stopped early, cleared for an unknown task type, otherwise
      the screen its type names, built from the task. */
  ghost predicate RunScreen(m: Mounted, before: Mounted, iter0: nat, s: Slot, pick: nat -> nat) {
    if !Dispatches(iter0, s) then m == before
    else
      var t := s.task;
      match RouteOf(t.tasktype)
      case NoScreen => m == Blank
      case ToWelcome =>
        && m.WelcomeOn?
        && m.w.consent == WelcomeScreen.ConsentOf(t.taskbody)
        && m.w.button == WelcomeScreen.WelcomeButton(m.w.consent, t.nextButtonHide)
      case ToQuestions =>
        && m.QuestionsOn?
        && m.q.Valid()
        && m.q.questions == t.taskbody.questions
        && m.q.qidlist == QuestionScreen.QidOrder(t.taskbody.questions, t.taskbody.shuffleQuestions, pick)
        && m.q.msgPleaseAnswer == Override(t.taskbody.pleaseAnswerMsg, QuestionScreen.DefaultPleaseAnswerMsg)
        && m.q.button == MakeNextButton(t.nextButtonHide, true)
      case ToThankyou => m == ThankyouOn(MakeNextButton(t.nextButtonHide, false))
  }

  /** What a click on the mounted screen's "next" button sets in motion. */
  datatype Action = Nothing | ReloadInitial | Request(r: ScreenRequest)

  /** `make_next_button`'s handler: no button does nothing, `submit({})` submits an empty
      object, the screen's own function does `own`. */
  function ButtonAction(b: NextButton, own: Action): (a: Action)
    ensures b.NoButton? ==> a == Nothing
    ensures b == Button(SubmitEmpty) ==> a == Request(CallSubmit(EmptyObject))
    ensures b == Button(SubmitFn) ==> a == own
  {
    match b
    case NoButton => Nothing
    case Button(SubmitEmpty) => Request(CallSubmit(EmptyObject))
    case Button(SubmitFn) => own
  }

  /** The cheating screen's own function is `cheatSubmit`, the welcome screen's is
      `pre_submit`, the question screen's is `_submit`; the thank-you screen has none. */
  ghost function ClickAction(m: Mounted): Action
    reads if m.WelcomeOn? then {m.w} else {}, if m.QuestionsOn? then {m.q} else {}
  {
    match m
    case Blank => Nothing
    case CheatingOn(b) => ButtonAction(b, ReloadInitial)
    case WelcomeOn(w) =>
      ButtonAction(w.button, Request(WelcomeScreen.Gate(w.consent, w.dataProtectionChecked, w.agreementChecked)))
    case QuestionsOn(q) => ButtonAction(q.button, Request(q.Decision()))
    case ThankyouOn(b) => ButtonAction(b, Nothing)
  }

  /** The click submits, with this payload. */
  predicate Submits(a: Action) {
    a.Request? && a.r.CallSubmit?
  }

  /** What a click does outside the page's state. */
  function ActionEffects(a: Action, s: Slot, userid: Value): (r: seq<Effect>)
    ensures a == ReloadInitial ==> r == [LoadInitial]
    ensures a.Request? && a.r.ShowToast? ==> r == [Toast(a.r.msg)]
    ensures Submits(a) ==> r == SubmitEffects(s, userid, a.r.payload)
    ensures a.Nothing? ==> r == []
  {
    match a
    case Nothing => []
    case ReloadInitial => [LoadInitial]
    case Request(ShowToast(msg)) => [Toast(msg)]
    case Request(CallSubmit(p)) => SubmitEffects(s, userid, p)
  }

  /** A rejected attempt on a welcome or question screen only shows its reminder: no
      request, no cookie; confirming on the cheating screen asks for the first task
      again and leaves the cookie alone. */
  lemma RejectedClickLoadsNothing(a: Action, s: Slot, userid: Value)
    ensures a.Request? && a.r.ShowToast? ==> Loads(ActionEffects(a, s, userid)) == 0
    ensures !Submits(a) ==> forall e :: e in ActionEffects(a, s, userid) ==> !e.SetCookieAgreed?
    ensures a == ReloadInitial ==> Loads(ActionEffects(a, s, userid)) == 1
  {
  }

  class Flow {
    /** `state.userid`. */
    var userid: Value
    /** `state.current_task_id`. */
    var currentTaskId: Value
    /** `state.task`. */
    var task: Slot
    /** `state.iter`. */
    var iter: nat
    /** The browser's `SYCL2023` cookie; it outlives the page. */
    var cookie: string
    /** Whether `window.onbeforeunload` asks before the page is left. */
    var leaveGuard: bool
    var screen: Mounted
    ghost var log: seq<Effect>

    /** `run` never rendered more screens than it was called, nor more than the ceiling. */
    ghost predicate Valid()
      reads this
    {
      Renders(log) <= iter && Renders(log) <= Ceiling
    }

    /** A page load: `state`'s initial values, with the cookie the browser kept. */
    constructor (storedCookie: string)
      ensures Valid()
      ensures userid == Str("null") && currentTaskId == Num(0) && task == NullTask && iter == 0
      ensures cookie == storedCookie && !leaveGuard && screen == Blank && log == []
    {
      userid, currentTaskId, task, iter := Str("null"), Num(0), NullTask, 0;
      cookie, leaveGuard, screen := storedCookie, false, Blank;
      log := [];
    }

    /** `init`: reset the ids, install the leave-page guard, show the reload toast, and
        then either show the cheating screen or ask for the first task. */
    method Init()
      requires Valid()
      modifies this`currentTaskId, this`userid, this`leaveGuard, this`screen, this`log
      ensures Valid()
      ensures currentTaskId == Num(0) && userid == Str("null") && leaveGuard
      ensures log == old(log) + InitEffects(cookie)
      ensures screen == if RoutesToCheating(cookie) then CheatingOn(MakeNextButton(None, true)) else old(screen)
    {
      currentTaskId := Num(0);
      userid := Str("null");
      leaveGuard := true;
      log := log + [InstallLeaveGuard, Toast(ReloadToast)];
      if cookie != "" && cookie != "true" {
        // The built-in cheating task has no `next_button_hide`.
        screen := CheatingOn(MakeNextButton(None, true));
        log := log + [Render(CheatingKind)];
      } else {
        log := log + [LoadInitial];
      }
      assert log == old(log) + InitEffects(cookie);
      InitLoadsIffNotCheating(cookie);
      CountsAppend(old(log), InitEffects(cookie));
    }

    /** `cheatSubmit`. */
    method CheatSubmit()
      requires Valid()
      modifies this`log
      ensures Valid()
      ensures log == old(log) + [LoadInitial]
    {
      CountsAppend(log, [LoadInitial]);
      log := log + [LoadInitial];
    }

    /** `load_next_task`: ask for the current task id with the payload. */
    method LoadNextTask(payload: Payload)
      requires Valid()
      modifies this`log
      ensures Valid()
      ensures log == old(log) + [LoadUserTask(userid, currentTaskId, payload)]
    {
      CountsAppend(log, [LoadUserTask(userid, currentTaskId, payload)]);
      log := log + [LoadUserTask(userid, currentTaskId, payload)];
    }

    /** `submit(payload)`: write the cookie, then stop on a final task or one without a
        successor, else move `current_task_id` on and ask for that task. Reading
        `next_task` of a `null` or missing task throws, after the cookie was written. */
    method Submit(payload: Payload) returns (thrown: bool)
      requires Valid()
      modifies this`cookie, this`currentTaskId, this`log
      ensures Valid()
      ensures cookie == CookieAgreed
      ensures thrown <==> !task.Loaded?
      ensures currentTaskId == if Advances(task) then task.task.nextTask.value else old(currentTaskId)
      ensures log == old(log) + SubmitEffects(task, userid, payload)
    {
      cookie := CookieAgreed;
      CountsAppend(log, [SetCookieAgreed]);
      log := log + [SetCookieAgreed];
      if !task.Loaded? {
        return true;
      }
      var next := task.task.nextTask;
      var final := task.task.final;
      if IsTrue(final) || IsNullish(next) {
        return false;
      }
      currentTaskId := next.value;
      LoadNextTask(payload);
      return false;
    }

    /** `show_welcome`, right after `run` cleared the page and passed the ceiling. */
    method ShowWelcome(t: Task)
      requires Renders(log) < iter <= Ceiling
      modifies this`screen, this`log
      ensures Valid()
      ensures screen.WelcomeOn? && fresh(screen.w)
      ensures screen.w.consent == WelcomeScreen.ConsentOf(t.taskbody)
      ensures screen.w.button == WelcomeScreen.WelcomeButton(screen.w.consent, t.nextButtonHide)
      ensures screen.w.Unticked()
      ensures log == old(log) + [Render(WelcomeKind)]
    {
      var w := new WelcomeScreen.Welcome(t);
      screen := WelcomeOn(w);
      CountsAppend(log, [Render(WelcomeKind)]);
      log := log + [Render(WelcomeKind)];
    }

    /** `show_qscreen`, right after `run` cleared the page and passed the ceiling. */
    method ShowQuestions(t: Task, pick: nat -> nat)
      requires Renders(log) < iter <= Ceiling
      modifies this`screen, this`log
      ensures Valid()
      ensures screen.QuestionsOn? && fresh(screen.q) && screen.q.Valid() && screen.q.answers == map[]
      ensures screen.q.questions == t.taskbody.questions
      ensures screen.q.qidlist == QuestionScreen.QidOrder(t.taskbody.questions, t.taskbody.shuffleQuestions, pick)
      ensures screen.q.msgPleaseAnswer == Override(t.taskbody.pleaseAnswerMsg, QuestionScreen.DefaultPleaseAnswerMsg)
      ensures screen.q.button == MakeNextButton(t.nextButtonHide, true)
      ensures log == old(log) + [Render(QuestionKind)]
    {
      var q := new QuestionScreen.QScreen(t, pick);
      screen := QuestionsOn(q);
      CountsAppend(log, [Render(QuestionKind)]);
      log := log + [Render(QuestionKind)];
    }

    /** `show_thankyou`, right after `run` cleared the page and passed the ceiling. */
    method ShowThankyou(t: Task)
      requires task == Loaded(t) && Renders(log) < iter <= Ceiling
      modifies this`screen, this`log, this`cookie, this`currentTaskId, this`leaveGuard
      ensures Valid()
      ensures screen == ThankyouOn(MakeNextButton(t.nextButtonHide, false))
      ensures log == old(log) + ThankyouEffects(t, userid)
      ensures cookie == CookieAgreed
      ensures currentTaskId == if Advances(task) then t.nextTask.value else old(currentTaskId)
      ensures leaveGuard == (old(leaveGuard) && !IsTrue(t.finalTask))
    {
      screen := ThankyouOn(MakeNextButton(t.nextButtonHide, false));
      CountsAppend(log, [Render(ThankyouKind)]);
      log := log + [Render(ThankyouKind)];
      var thrown := Submit(Finished);
      ReleaseGuardIfFinal(t);
      AppendRegroup(old(log), [Render(ThankyouKind)], SubmitEffects(Loaded(t), userid, Finished),
                    if IsTrue(t.finalTask) then [ReleaseLeaveGuard] else []);
    }

    /** The end of `show_thankyou`: `window.onbeforeunload = null` when `final_task === true`. */
    method ReleaseGuardIfFinal(t: Task)
      requires Valid()
      modifies this`leaveGuard, this`log
      ensures Valid()
      ensures leaveGuard == (old(leaveGuard) && !IsTrue(t.finalTask))
      ensures log == old(log) + if IsTrue(t.finalTask) then [ReleaseLeaveGuard] else []
    {
      if IsTrue(t.finalTask) {
        leaveGuard := false;
        CountsAppend(log, [ReleaseLeaveGuard]);
        log := log + [ReleaseLeaveGuard];
      }
    }

    /** `run`: count the call, stop past the ceiling, and for a task object clear the page
        and show the screen its `tasktype` names. */
    method Run(pick: nat -> nat)
      requires Valid()
      modifies this`iter, this`screen, this`log, this`cookie, this`currentTaskId, this`leaveGuard
      ensures Valid()
      ensures iter == old(iter) + 1
      ensures log == old(log) + RunEffects(old(iter), task, userid)
      ensures RunScreen(screen, old(screen), old(iter), task, pick)
      ensures Dispatches(old(iter), task) && screen.WelcomeOn? ==>
                fresh(screen.w) && screen.w.Unticked()
      ensures Dispatches(old(iter), task) && screen.QuestionsOn? ==> fresh(screen.q) && screen.q.answers == map[]
      ensures Dispatches(old(iter), task) && RouteOf(task.task.tasktype) == ToThankyou ==>
                && cookie == CookieAgreed
                && currentTaskId == (if Advances(task) then task.task.nextTask.value else old(currentTaskId))
                && leaveGuard == (old(leaveGuard) && !IsTrue(task.task.finalTask))
      ensures !(Dispatches(old(iter), task) && RouteOf(task.task.tasktype) == ToThankyou) ==>
                cookie == old(cookie) && currentTaskId == old(currentTaskId) && leaveGuard == old(leaveGuard)
    {
      iter := iter + 1;
      if iter > Ceiling {
        return;
      }
      if task.Loaded? {
        var t := task.task;
        screen := Blank;
        match RouteOf(t.tasktype)
        case ToWelcome =>
          ShowWelcome(t);
        case ToThankyou =>
          ShowThankyou(t);
        case ToQuestions =>
          ShowQuestions(t, pick);
        case NoScreen =>
      }
    }

    /** `on_task_loaded`: take the user id from a `[userid, task]` pair, store the task,
        and run unless the task is `null`. */
    method OnTaskLoaded(resp: Response, pick: nat -> nat)
      requires Valid()
      modifies this`userid, this`task, this`iter, this`screen, this`log, this`cookie, this`currentTaskId, this`leaveGuard
      ensures Valid()
      ensures userid == if resp.WithUser? then resp.userid else old(userid)
      ensures task == resp.slot
      ensures task == NullTask ==> iter == old(iter) && screen == old(screen) && log == old(log)
      ensures task != NullTask ==> iter == old(iter) + 1 && log == old(log) + RunEffects(old(iter), task, userid)
      ensures task != NullTask ==> RunScreen(screen, old(screen), old(iter), task, pick)
      ensures Dispatches(old(iter), task) && screen.WelcomeOn? ==>
                fresh(screen.w) && screen.w.Unticked()
      ensures Dispatches(old(iter), task) && screen.QuestionsOn? ==> fresh(screen.q) && screen.q.answers == map[]
      ensures Dispatches(old(iter), task) && RouteOf(task.task.tasktype) == ToThankyou ==>
                && cookie == CookieAgreed
                && currentTaskId == (if Advances(task) then task.task.nextTask.value else old(currentTaskId))
                && leaveGuard == (old(leaveGuard) && !IsTrue(task.task.finalTask))
      ensures !(Dispatches(old(iter), task) && RouteOf(task.task.tasktype) == ToThankyou) ==>
                cookie == old(cookie) && currentTaskId == old(currentTaskId) && leaveGuard == old(leaveGuard)
    {
      match resp {
        case WithUser(u, s) =>
          userid := u;
          task := s;
        case TaskOnly(s) =>
          task := s;
      }
      if task == NullTask {
        return;
      }
      Run(pick);
    }

    /** A click on the mounted screen's "next" button. */
    method ClickNext() returns (thrown: bool)
      requires Valid()
      modifies this`cookie, this`currentTaskId, this`log
      ensures Valid()
      ensures log == old(log) + ActionEffects(ClickAction(screen), task, userid)
      ensures cookie == if Submits(ClickAction(screen)) then CookieAgreed else old(cookie)
      ensures thrown <==> Submits(ClickAction(screen)) && !task.Loaded?
      ensures currentTaskId ==
                if Submits(ClickAction(screen)) && Advances(task) then task.task.nextTask.value else old(currentTaskId)
    {
      var a := PendingAction();
      thrown := Perform(a);
    }

    /** Run the mounted screen's check behind the button, without acting on it yet. */
    method PendingAction() returns (a: Action)
      requires Valid()
      ensures a == ClickAction(screen)
    {
      match screen {
        case Blank =>
          a := Nothing;
        case CheatingOn(b) =>
          a := ButtonAction(b, ReloadInitial);
        case WelcomeOn(w) =>
          if w.button == Button(SubmitFn) {
            var r := w.PreSubmit();
            a := Request(r);
          } else {
            a := ButtonAction(w.button, Nothing);
          }
        case QuestionsOn(q) =>
          if q.button == Button(SubmitFn) {
            var r := q.Submit();
            a := Request(r);
          } else {
            a := ButtonAction(q.button, Nothing);
          }
        case ThankyouOn(b) =>
          a := ButtonAction(b, Nothing);
      }
    }

    /** Carry out what a click set in motion. */
    method Perform(a: Action) returns (thrown: bool)
      requires Valid()
      modifies this`cookie, this`currentTaskId, this`log
      ensures Valid()
      ensures log == old(log) + ActionEffects(a, task, userid)
      ensures cookie == if Submits(a) then CookieAgreed else old(cookie)
      ensures thrown <==> Submits(a) && !task.Loaded?
      ensures currentTaskId == if Submits(a) && Advances(task) then task.task.nextTask.value else old(currentTaskId)
    {
      thrown := false;
      match a
      case Nothing =>
      case ReloadInitial =>
        CheatSubmit();
      case Request(ShowToast(msg)) =>
        CountsAppend(log, [Toast(msg)]);
        log := log + [Toast(msg)];
      case Request(CallSubmit(p)) =>
        thrown := Submit(p);
    }
  }
}
