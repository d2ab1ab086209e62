/** The task objects the survey server hands to the client, and the small vocabulary the
    screens and the flow controller share: what a screen asks the controller to do, what
    payload a submission carries, and what the "next" button does when clicked. */
module SurveyTask {
  import opened JsValue

  /** One entry of a question task's `questions` object. */
  datatype Question = Question(
    text: string,                    // `Question`
    qtype: Option<Value>,            // `QType`
    options: seq<string>,            // `options`, the radio values in display order
    showDividers: Option<Value>,     // `show_dividers`
    showOptionLabels: Option<Value>  // `show_option_labels`
  )

  /** `taskbody`: every key is optional except `questions`, which only question tasks read. */
  datatype TaskBody = TaskBody(
    heading: Option<string>,
    body: Option<string>,
    questions: map<string, Question>,
    shuffleQuestions: Option<Value>,              // `shuffle_questions`
    pleaseAnswerMsg: Option<string>,              // `please_answer_msg`
    dataProtectionHeading: Option<string>,        // `data_protection_heading`
    agreementCheckCaption: Option<string>,        // `agreement_check_caption`
    dataprotectionButton: Option<string>,         // `dataprotection_button`
    pleaseCheckDataprotectionMsg: Option<string>, // `please_check_dataprotection_msg`
    pleaseCheckAgreementMsg: Option<string>       // `please_check_agreement_msg`
  )

  /** A task object. */
  datatype Task = Task(
    tasktype: Option<Value>,         // `tasktype`
    nextTask: Option<Value>,         // `next_task`
    final: Option<Value>,            // `final`
    nextButtonHide: Option<Value>,   // `next_button_hide`
    finalTask: Option<Value>,        // `final_task` (thankyou tasks)
    taskbody: TaskBody
  )

  /** What lands in `state.task`: `null`, `undefined` (a one-element array response)
      or a task object. */
  datatype Slot = NullTask | Undefined | Loaded(task: Task)

  /** A server response: a `[userid, task]` array on first contact, otherwise a bare task. */
  datatype Response = WithUser(userid: Value, slot: Slot) | TaskOnly(slot: Slot)

  /** The `appdata` argument of `submit`: none (`submit()`), `{}`, or `{"finished": true}`. */
  datatype Payload = NoPayload | EmptyObject | Finished

  /** What a screen's pre-submit check asks of the controller. */
  datatype ScreenRequest = ShowToast(msg: string) | CallSubmit(payload: Payload)

  /** What a click on the "next" button calls: the screen's own function, or `submit({})`. */
  datatype Handler = SubmitFn | SubmitEmpty

  datatype NextButton = NoButton | Button(onClick: Handler)
}
