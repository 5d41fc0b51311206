/**
 * The request handler: the admin guard, the captcha verdict, and what a GET
 * or a POST produces. The platform's services appear as inputs (the stored
 * record, the signed-in user, the verifier's reply) and as outputs (the
 * response, the mail handed to the mail service, the verification call
 * made, the record written back).
 */
module Handler {
  import opened Wrappers
  import opened Text
  import opened Web
  import opened FeedbackSettings
  import Recipients
  import Compose

  const VERIFY_URL := "http://www.google.com/recaptcha/api/verify"
  const ACCESS_DENIED_HTML := "<html><body><h1>Access denied</h1><p>Only admins are allowed to use this page.</p></body></html>"
  const WRONG_ANSWER := "Wrong answer."

  /** The values the feedback form is built from. */
  datatype FormView = FormView(style: string, sentNotice: bool, back: string, sender: string,
                               fixedSubject: Option<string>, captchaKey: string)

  datatype Content = Plain(text: string) | SettingsPage(view: View) | FeedbackPage(form: FormView)

  datatype Response =
    | Reply(status: nat, contentType: string, content: Content)
    | Redirect(location: string)
    /** A redirect to the identity service's login page, returning to `continueUrl`. */
    | LoginRedirect(continueUrl: string)
    /** An exception escaped the handler; the platform answers with its error page. */
    | ServerError

  /** The call to the captcha verifier. */
  datatype VerifyCall = VerifyCall(url: string, privateKey: string, remoteIp: string,
                                   challenge: string, response: string)

  /** Everything one request does. */
  datatype Effect = Effect(response: Response, mail: Option<Mail>,
                           verification: Option<VerifyCall>, saved: Option<SettingsRecord>)

  predicate IsAdmin(user: Option<User>)
  {
    user.Some? && user.value.isAdmin
  }

  datatype Access = Granted | Refused(response: Response)

  /** `check_admin`: anonymous users log in, signed-in non-admins get a 403 page. */
  function CheckAdmin(user: Option<User>, url: string): (a: Access)
    ensures a.Granted? <==> IsAdmin(user)
    ensures user.None? ==> a == Refused(LoginRedirect(url))
    ensures user.Some? && !user.value.isAdmin ==>
              a == Refused(Reply(403, "text/html", Plain(ACCESS_DENIED_HTML)))
  {
    if user.None? then Refused(LoginRedirect(url))
    else if !user.value.isAdmin then Refused(Reply(403, "text/html", Plain(ACCESS_DENIED_HTML)))
    else Granted
  }

  /** The captcha is enforced only when both keys are set. */
  predicate CaptchaEnabled(s: SettingsRecord)
  {
    Present(s.reCaptchaPublic) && Present(s.reCaptchaPrivate)
  }

  /** `check[0] == 'true'` on the verifier's reply split into lines. */
  predicate Accepts(reply: string)
  {
    FirstLine(reply) == "true"
  }

  /** A reply is accepted exactly when it is `true` alone or `true` followed by a line break. */
  lemma AcceptsIff(reply: string)
    ensures Accepts(reply) <==> reply == "true" || "true\n" <= reply
  {
    if reply == "true" {
      SplitWithout(reply, '\n');
    } else if "true\n" <= reply {
      assert reply == "true" + "\n" + reply[5..];
      FirstLineOf("true", reply[5..]);
    }
  }

  datatype CaptchaCheck = CaptchaCheck(passed: bool, call: Option<VerifyCall>)

  /** `check_captcha`: skipped without both keys, otherwise the verifier's first line decides. */
  function CheckCaptcha(s: SettingsRecord, req: Request, reply: string): (c: CaptchaCheck)
    ensures c.call.Some? <==> CaptchaEnabled(s)
    ensures !CaptchaEnabled(s) ==> c.passed
    ensures CaptchaEnabled(s) ==> (c.passed <==> reply == "true" || "true\n" <= reply)
    ensures c.call.Some? ==>
              c.call.value == VerifyCall(VERIFY_URL, s.reCaptchaPrivate.value, req.remoteAddr,
                                         req.Get("recaptcha_challenge_field"),
                                         req.Get("recaptcha_response_field"))
  {
    if !CaptchaEnabled(s) then CaptchaCheck(true, None)
    else
      AcceptsIff(reply);
      CaptchaCheck(Accepts(reply),
                   Some(VerifyCall(VERIFY_URL, s.reCaptchaPrivate.value, req.remoteAddr,
                                   req.Get("recaptcha_challenge_field"),
                                   req.Get("recaptcha_response_field"))))
  }

  /** Python's `'%s' % value` for an optional string. */
  function Format(o: Option<string>): string
  {
    if o.Some? then o.value else "None"
  }

  /** The feedback form's values. */
  function FormViewOf(s: SettingsRecord, req: Request, user: Option<User>): (f: FormView)
    ensures f.sentNotice <==> req.Has("sent")
    ensures req.Get("back") != "" ==> f.back == req.Get("back")
    ensures req.Get("back") == "" ==> f.back == req.url + "?sent"
    ensures user.None? ==> f.sender == ""
    ensures user.Some? ==> f.sender == user.value.email
    ensures f.fixedSubject.Some? <==> req.Get("subject") != ""
    ensures f.fixedSubject.Some? ==> f.fixedSubject.value == req.Get("subject")
    ensures f.style == OrEmpty(s.styleSheet)
    ensures s.reCaptchaPublic.Some? ==> f.captchaKey == s.reCaptchaPublic.value
    ensures s.reCaptchaPublic.None? ==> f.captchaKey == "None"
  {
    FormView(OrEmpty(s.styleSheet), req.Has("sent"),
             if req.Get("back") != "" then req.Get("back") else req.url + "?sent",
             if user.Some? then user.value.email else "",
             if req.Get("subject") != "" then Some(req.Get("subject")) else None,
             Format(s.reCaptchaPublic))
  }

  /** The pieces of the feedback form, in the order the page shows them. */
  datatype FormPart =
    | SentNotice
    | BackField(back: string)
    | SenderField(sender: string)
    | HiddenSubject(subject: string)
    | SubjectInput
    | MessageArea
    | CaptchaScript(key: string)
    | SendButton

  /**
   * The form's fields, appended one after another: the notice only after a
   * send, a subject input only when no subject is fixed, the captcha script
   * and the button last.
   */
  method BuildFormFields(f: FormView) returns (parts: seq<FormPart>)
    ensures SentNotice in parts <==> f.sentNotice
    ensures f.sentNotice ==> parts[0] == SentNotice
    ensures SubjectInput in parts <==> f.fixedSubject.None?
    ensures forall v :: HiddenSubject(v) in parts <==> f.fixedSubject == Some(v)
    ensures var o := if f.sentNotice then 1 else 0;
      |parts| == o + 6 && parts[o] == BackField(f.back) && parts[o + 1] == SenderField(f.sender) &&
      parts[o + 3] == MessageArea && parts[o + 4] == CaptchaScript(f.captchaKey) && parts[o + 5] == SendButton
  {
    parts := [];
    if f.sentNotice {
      parts := parts + [SentNotice];
    }
    parts := parts + [BackField(f.back)];
    parts := parts + [SenderField(f.sender)];
    if f.fixedSubject.Some? {
      parts := parts + [HiddenSubject(f.fixedSubject.value)];
    } else {
      parts := parts + [SubjectInput];
    }
    parts := parts + [MessageArea];
    parts := parts + [CaptchaScript(f.captchaKey)];
    parts := parts + [SendButton];
  }

  /** `get`: the settings page for admins, otherwise the feedback form. */
  function HandleGet(req: Request, stored: Option<SettingsRecord>, user: Option<User>): (r: Response)
    ensures req.Has("settings") ==> (r.Reply? && r.content.SettingsPage? <==> IsAdmin(user))
    ensures req.Has("settings") && !IsAdmin(user) ==> Refused(r) == CheckAdmin(user, req.url)
    ensures req.Has("settings") && IsAdmin(user) ==>
              r == Reply(200, "text/html", SettingsPage(ViewOf(LoadSettings(stored), req.path)))
    ensures !req.Has("settings") ==>
              (r == ServerError <==> req.Get("to") == "" && LoadSettings(stored).validRecipients == [])
    ensures !req.Has("settings") && r != ServerError ==>
              r == Reply(200, "text/html", FeedbackPage(FormViewOf(LoadSettings(stored), req, user)))
  {
    if req.Has("settings") then
      match CheckAdmin(user, req.url)
      case Refused(denied) => denied
      case Granted => Reply(200, "text/html", SettingsPage(ViewOf(LoadSettings(stored), req.path)))
    else
      var s := LoadSettings(stored);
      if Recipients.GetRecipient(req.Get("to"), s.validRecipients).None? then ServerError
      else Reply(200, "text/html", FeedbackPage(FormViewOf(s, req, user)))
  }

  /** `post`: the settings save for admins, otherwise the captcha check and the mail. */
  function HandlePost(req: Request, stored: Option<SettingsRecord>, user: Option<User>, reply: string): (e: Effect)
    ensures req.Has("settings") ==> e.mail.None? && e.verification.None?
    ensures req.Has("settings") ==> (e.saved.Some? <==> IsAdmin(user))
    ensures req.Has("settings") && IsAdmin(user) ==>
              e.saved == Some(Saved(req)) && e.response == Redirect(req.url)
    ensures req.Has("settings") && !IsAdmin(user) ==> Refused(e.response) == CheckAdmin(user, req.url)
    ensures !req.Has("settings") ==>
              e.saved.None? && (e.verification.Some? <==> CaptchaEnabled(LoadSettings(stored)))
    ensures !req.Has("settings") ==> e.verification == CheckCaptcha(LoadSettings(stored), req, reply).call
    ensures !req.Has("settings") && CaptchaEnabled(LoadSettings(stored)) &&
            !(reply == "true" || "true\n" <= reply) ==>
              e.mail.None? && e.response == Reply(200, "text/plain", Plain(WRONG_ANSWER))
    ensures e.mail.Some? <==>
              !req.Has("settings") &&
              (!CaptchaEnabled(LoadSettings(stored)) || reply == "true" || "true\n" <= reply) &&
              LoadSettings(stored).validRecipients != []
    ensures !req.Has("settings") &&
            (!CaptchaEnabled(LoadSettings(stored)) || reply == "true" || "true\n" <= reply) &&
            LoadSettings(stored).validRecipients == [] ==>
              e.response == ServerError
    ensures e.mail.Some? ==>
              e.response == Redirect(req.Get("back")) &&
              e.mail.value.to in LoadSettings(stored).validRecipients &&
              Some(e.mail.value.to) == Recipients.PostRecipient(req.Get("to"), LoadSettings(stored).validRecipients) &&
              e.mail.value.sender == Compose.SenderOf(req.Get("from")) &&
              e.mail.value.subject == Compose.SubjectOf(req.Get("subject"), req.Get("prefix")) &&
              e.mail.value.body == Compose.Body(e.mail.value.sender, Compose.MessageOf(req.Get("message")))
  {
    if req.Has("settings") then
      match CheckAdmin(user, req.url)
      case Refused(denied) => Effect(denied, None, None, None)
      case Granted =>
        var loaded := LoadSettings(stored);
        AllFieldsListed();
        SaveOverwrites(loaded, req, ALL_FIELDS);
        Effect(Redirect(req.url), None, None, Some(ApplyFields(loaded, req, ALL_FIELDS)))
    else
      var s := LoadSettings(stored);
      var captcha := CheckCaptcha(s, req, reply);
      if !captcha.passed then Effect(Reply(200, "text/plain", Plain(WRONG_ANSWER)), None, captcha.call, None)
      else
        var sender := Compose.SenderOf(req.Get("from"));
        var message := Compose.MessageOf(req.Get("message"));
        var subject := Compose.SubjectOf(req.Get("subject"), req.Get("prefix"));
        match Recipients.PostRecipient(req.Get("to"), s.validRecipients)
        case None => Effect(ServerError, None, captcha.call, None)
        case Some(to) =>
          Effect(Redirect(req.Get("back")), Some(Mail(sender, to, subject, Compose.Body(sender, message))),
                 captcha.call, None)
  }

  /**
   * A sent mail's body reads back as the sender (or `anonymous`) and the
   * message (or `no message`), when the sender field has no line break.
   */
  lemma MailReadsBack(req: Request, stored: Option<SettingsRecord>, user: Option<User>, reply: string)
    requires HandlePost(req, stored, user, reply).mail.Some?
    requires '\n' !in req.Get("from")
    ensures Compose.ReadBody(HandlePost(req, stored, user, reply).mail.value.body)
            == Some(Compose.Letter(Compose.SenderOf(req.Get("from")), Compose.MessageOf(req.Get("message"))))
  {
    var sender, message := Compose.SenderOf(req.Get("from")), Compose.MessageOf(req.Get("message"));
    var mail := HandlePost(req, stored, user, reply).mail.value;
    assert mail.body == Compose.Body(sender, message);
    assert '\n' !in sender;
    Compose.ReadComposed(sender, message);
  }

  /**
   * An admin who opens the settings page and saves it unchanged keeps a
   * well-formed recipient list as it was.
   */
  lemma SettingsPageRoundTrip(view: Request, save: Request, stored: Option<SettingsRecord>, user: Option<User>, reply: string)
    requires view.Has("settings") && save.Has("settings") && IsAdmin(user)
    requires forall i :: 0 <= i < |LoadSettings(stored).validRecipients| ==>
               Recipients.IsRecipient(LoadSettings(stored).validRecipients[i])
    requires HandleGet(view, stored, user).content.SettingsPage?
    requires Resubmits(save, HandleGet(view, stored, user).content.view)
    ensures HandlePost(save, stored, user, reply).saved.Some?
    ensures HandlePost(save, stored, user, reply).saved.value.validRecipients == LoadSettings(stored).validRecipients
  {
    SaveShown(LoadSettings(stored), view.path, save);
  }

  /**
   * Saving a recipient text with no entry in it breaks the site: a later GET
   * without `to` fails, and no message POST sends mail.
   */
  lemma EmptyListBreaksForms(save: Request, req: Request, user: Option<User>, reply: string)
    requires Recipients.Parse(save.Get("ValidRecipients")) == []
    ensures !req.Has("settings") && req.Get("to") == "" ==> HandleGet(req, Some(Saved(save)), user) == ServerError
    ensures HandlePost(req, Some(Saved(save)), user, reply).mail.None?
  {
  }
}
