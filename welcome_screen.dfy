/** The welcome screen and its consent gate. A welcome task may declare a data-protection
    section, an agreement section, both or neither; each declared section puts one checkbox
    on the screen, and the participant can go on only once every declared box is ticked. */
module WelcomeScreen {
  import opened JsValue
  import opened SurveyTask
  import opened Utils

  const DefaultDataProtectionCaption := "Read data protection and privacy statement"
  const DefaultPleaseCheckDataProtectionMsg := "Please agree to the data protection and privacy statement"
  const DefaultPleaseCheckAgreementMsg := "Bitte willigen Sie in die Teilnahme ein!"

  /** What `show_welcome` derives from `taskbody` before building anything. */
  datatype Consent = Consent(
    hasDataProtection: bool,       // `_hasDatenschutz`
    hasAgreement: bool,            // `_hasAgreement`
    showBottom: bool,              // `_showBottom`
    dataProtectionCaption: string, // `_datenschutzButtonCaption`
    msgDataProtection: string,     // `_msgPleaseCheckDataprotection`
    msgAgreement: string           // `_msgPleaseCheckAgreement`
  )

  /** A section is declared exactly when its key is present; the bottom area is shown
      exactly when some section is declared; each text is the task's own when present. */
  function ConsentOf(b: TaskBody): (c: Consent)
    ensures c.hasDataProtection <==> b.dataProtectionHeading.Some?
    ensures c.hasAgreement <==> b.agreementCheckCaption.Some?
    ensures c.showBottom <==> c.hasDataProtection || c.hasAgreement
    ensures c.dataProtectionCaption == Override(b.dataprotectionButton, DefaultDataProtectionCaption)
    ensures c.msgDataProtection == Override(b.pleaseCheckDataprotectionMsg, DefaultPleaseCheckDataProtectionMsg)
    ensures c.msgAgreement == Override(b.pleaseCheckAgreementMsg, DefaultPleaseCheckAgreementMsg)
  {
    var hasDatenschutz := b.dataProtectionHeading.Some?;
    var hasAgreement := b.agreementCheckCaption.Some?;
    Consent(hasDatenschutz, hasAgreement, hasDatenschutz || hasAgreement,
            Override(b.dataprotectionButton, DefaultDataProtectionCaption),
            Override(b.pleaseCheckDataprotectionMsg, DefaultPleaseCheckDataProtectionMsg),
            Override(b.pleaseCheckAgreementMsg, DefaultPleaseCheckAgreementMsg))
  }

  /** `pre_submit`'s guarded early returns: data protection is checked first, then the
      agreement, and only then is `submit()` called. */
  function Gate(c: Consent, dataProtectionChecked: bool, agreementChecked: bool): (r: ScreenRequest)
  {
    if c.hasDataProtection && !dataProtectionChecked then ShowToast(c.msgDataProtection)
    else if c.hasAgreement && !agreementChecked then ShowToast(c.msgAgreement)
    else CallSubmit(NoPayload)
  }

  /** The gate lets the participant through exactly when every declared section is
      ticked; an undeclared section asks for nothing; passing calls `submit()` without
      a payload. */
  lemma GatePassesIffDeclaredChecked(c: Consent, dp: bool, agr: bool)
    ensures Gate(c, dp, agr).CallSubmit? <==> (c.hasDataProtection ==> dp) && (c.hasAgreement ==> agr)
    ensures Gate(c, dp, agr).CallSubmit? ==> Gate(c, dp, agr).payload == NoPayload
  {
  }

  /** One attempt shows at most one reminder, and the data-protection reminder wins when
      both declared boxes are unticked. */
  lemma GateReminderOrder(c: Consent, dp: bool, agr: bool)
    ensures Gate(c, dp, agr).ShowToast? ==>
              Gate(c, dp, agr).msg == (if c.hasDataProtection && !dp then c.msgDataProtection else c.msgAgreement)
    ensures c.hasDataProtection && c.hasAgreement && !dp && !agr ==> Gate(c, dp, agr) == ShowToast(c.msgDataProtection)
  {
  }

  /** Without a bottom area the button is the shared next button, which honours
      `next_button_hide`; with one, a button calling `pre_submit` is always there. */
  function WelcomeButton(c: Consent, hidden: Option<Value>): (b: NextButton)
    ensures c.showBottom ==> b == Button(SubmitFn)
    ensures !c.showBottom ==> b == MakeNextButton(hidden, true)
  {
    if c.showBottom then Button(SubmitFn) else MakeNextButton(hidden, true)
  }

  class Welcome {
    const consent: Consent
    const button: NextButton
    /** `_datenschutzChecked` and `_agreementChecked`. */
    var dataProtectionChecked: bool
    var agreementChecked: bool
    /** The `checked` state of the two checkboxes on the page. */
    var dataProtectionBox: bool
    var agreementBox: bool
    /** Whether the data-protection statement overlay is displayed. */
    var overlayShown: bool

    /** Each flag mirrors its checkbox. */
    ghost predicate Valid()
      reads this
    {
      dataProtectionChecked == dataProtectionBox && agreementChecked == agreementBox
    }

    /** The state `show_welcome` leaves the screen in: nothing ticked, no overlay. */
    ghost predicate Unticked()
      reads this
    {
      && Valid()
      && !dataProtectionChecked && !agreementChecked && !dataProtectionBox && !agreementBox
      && !overlayShown
    }

    /** `show_welcome`: both flags and both boxes start unticked on every rendering, and
        the overlay starts hidden. */
    constructor (t: Task)
      ensures Valid()
      ensures consent == ConsentOf(t.taskbody)
      ensures button == WelcomeButton(consent, t.nextButtonHide)
      ensures !dataProtectionChecked && !agreementChecked && !dataProtectionBox && !agreementBox
      ensures !overlayShown
      ensures Unticked()
    {
      consent := ConsentOf(t.taskbody);
      button := WelcomeButton(ConsentOf(t.taskbody), t.nextButtonHide);
      dataProtectionChecked, agreementChecked := false, false;
      dataProtectionBox, agreementBox := false, false;
      overlayShown := false;
    }

    /** The data-protection button of the bottom area opens the statement overlay; it
        touches neither flag. */
    method ShowDataProtection()
      requires consent.showBottom
      modifies this`overlayShown
      ensures overlayShown
    {
      overlayShown := true;
    }

    /** A click anywhere on the overlay closes it. */
    method ClickOverlay()
      modifies this`overlayShown
      ensures !overlayShown
    {
      if overlayShown {
        overlayShown := false;
      }
    }

    /** The agreement label's click handler: toggle the box, then copy it into the flag. */
    method ClickAgreementLabel()
      requires consent.hasAgreement && Valid()
      modifies this`agreementBox, this`agreementChecked
      ensures agreementBox == !old(agreementBox) && agreementChecked == agreementBox
      ensures Valid()
    {
      agreementBox := !agreementBox;
      agreementChecked := agreementBox;
    }

    /** A click on the agreement box: the browser toggles it, then the handler copies it
        into the flag. */
    method ClickAgreementBox()
      requires consent.hasAgreement && Valid()
      modifies this`agreementBox, this`agreementChecked
      ensures agreementBox == !old(agreementBox) && agreementChecked == agreementBox
      ensures Valid()
    {
      agreementBox := !agreementBox;
      agreementChecked := agreementBox;
    }

    /** The data-protection label's click handler. */
    method ClickDataProtectionLabel()
      requires consent.hasDataProtection && Valid()
      modifies this`dataProtectionBox, this`dataProtectionChecked
      ensures dataProtectionBox == !old(dataProtectionBox) && dataProtectionChecked == dataProtectionBox
      ensures Valid()
    {
      dataProtectionBox := !dataProtectionBox;
      dataProtectionChecked := dataProtectionBox;
    }

    /** A click on the data-protection box. */
    method ClickDataProtectionBox()
      requires consent.hasDataProtection && Valid()
      modifies this`dataProtectionBox, this`dataProtectionChecked
      ensures dataProtectionBox == !old(dataProtectionBox) && dataProtectionChecked == dataProtectionBox
      ensures Valid()
    {
      dataProtectionBox := !dataProtectionBox;
      dataProtectionChecked := dataProtectionBox;
    }

    /** `pre_submit`. */
    method PreSubmit() returns (r: ScreenRequest)
      ensures r == Gate(consent, dataProtectionChecked, agreementChecked)
      ensures r.CallSubmit? <==> (consent.hasDataProtection ==> dataProtectionChecked) &&
                                 (consent.hasAgreement ==> agreementChecked)
    {
      if consent.hasDataProtection {
        if !dataProtectionChecked {
          return ShowToast(consent.msgDataProtection);
        }
      }
      if consent.hasAgreement {
        if !agreementChecked {
          return ShowToast(consent.msgAgreement);
        }
      }
      return CallSubmit(NoPayload);
    }
  }
}
