# Feedback form for Google App Engine — a Dafny model

`feedback.py` is one WSGI request handler. It serves two things:

- a feedback form whose messages are mailed to one of a configured list of recipients;
- an admin-only settings page holding that list, the sender field, a style sheet and the reCAPTCHA keys.

This project models the decisions and the string rules the handler makes on each request. The platform services are inputs and outputs of pure functions:

- **Datastore.** The stored record comes in as `Option<SettingsRecord>`. The record written back comes out as `Effect.saved`.
- **Signed-in user.** This is `Option<User>`, with the admin flag.
- **Verifier's reply.** This is a string. The call made to the verifier comes out as `Effect.verification`.
- **Mail.** The mail handed to the mail service comes out as `Effect.mail`.

The responses are modelled as a datatype: a reply with status, content type and page values, a redirect, a login redirect, or a server error for an uncaught exception.

Modules, in dependency order:

- `Wrappers`: `Option`.
- `Text`: Python 2's `unicode.strip()` (the Unicode whitespace set of `unicode.isspace`), `split`, `join`, `c * n`, and the first line of a text. Includes the lemmas that characterise them.
- `Web`: the request, the user and the mail. `Request.Get` is webapp's `request.get`, which gives `""` for an absent argument.
- `Recipients`:
  - parsing of the recipient text (`[x.strip() for x in value.split(',') if x.strip()]`);
  - its display (`', '.join(...)`);
  - the round trip between the two;
  - POST's and GET's choice of recipient.
- `Compose`:
  - the sender, message and subject defaults;
  - the subject prefix;
  - the mail body layout, with a reader that recovers sender and message from a body.
- `FeedbackSettings`:
  - the settings record and its defaults (`load_settings`);
  - `getattr`/`setattr` on its five properties;
  - the save loop, as a `Settings` class whose `Save` method assigns each field in turn;
  - the values the settings page shows.
- `Handler`:
  - `check_admin`, `check_captcha`, `get` and `post`;
  - the GET form assembled piece by piece;
  - lemmas relating viewing, saving and mailing.

Where the code and its documentation differ, the model follows the code:

- **Recipient on GET.** GET computes a recipient (`feedback.py:89`) but never uses it; the form has no recipient field. Only the possible `IndexError` on an empty list remains. `HandleGet` yields `ServerError` exactly when `to` is empty and the list is empty.
- **Captcha.** There is no separate challenge step. When both keys are set, every message POST calls the verifier with the submitted challenge and response fields.
- **Verifier reply.** A reply passes iff its first line is exactly `true`, i.e. the reply is `true` or starts with `true` followed by a line break (`Handler.AcceptsIff`). A reply such as `trueish` fails.
- **Redirect after sending.** `redirect` receives the raw `back` argument (`feedback.py:150`), which may be empty; `Redirect(location)` records that argument, which the framework then resolves against the request URL (an empty one leads back to the POST URL). The defaulted `back` at `feedback.py:135` is never used.
- **Mail sender.** The sender of the mail is the form's `from` field. The stored `From` setting is never read when sending.
- **Captcha script.** When no public key is set, the form's captcha script is rendered with the key `None` (`'%s' % None`).

## Model

| member | source | states |
|---|---|---|
| Web.Request.Get | feedback.py:117 | an absent argument reads as the empty string, a present one as its value |
| Web.Request.Has | feedback.py:72 | `name in request.arguments()`, as used for `settings` (lines 72, 112) and `sent` (line 94); characterised by `Web.Request.Get`, which gives the argument's value exactly when `Has` holds |
| Text.Strip | feedback.py:119 | the result has no whitespace at either end and is no longer than the input |
| Text.TrimLeft | feedback.py:119 | the leading half of `strip()`; `Text.TrimLeftSuffix` states what it keeps |
| Text.TrimLeftSuffix | feedback.py:119 | what remains after dropping leading whitespace is a suffix of the input that starts with a non-space, and everything dropped is whitespace |
| Text.TrimRight | feedback.py:119 | the trailing half of `strip()`; `Text.TrimRightPrefix` states what it keeps |
| Text.TrimRightPrefix | feedback.py:119 | what remains after dropping trailing whitespace is a prefix of the input that ends with a non-space, and everything dropped is whitespace |
| Text.StripSurrounded | feedback.py:119 | stripping any trimmed text surrounded by whitespace only gives exactly that text, so strip removes the surrounding whitespace and nothing else |
| Text.StripIdempotent | feedback.py:119 | stripping a stripped text changes nothing, so an entry already in the list is kept as it is when saved again |
| Text.StripAddsNothing | feedback.py:119 | a character absent from the input is absent from the stripped result |
| Text.Split | feedback.py:119 | there is at least one piece, no piece contains the separator, and the first piece is the input's prefix up to the first separator |
| Text.SplitConcat | feedback.py:119 | splitting `a + sep + b` gives the pieces of `a` followed by the pieces of `b` |
| Text.SplitJoin | feedback.py:119 | joining the pieces of a split with the separator restores the text |
| Text.Join | feedback.py:81 | Python's `sep.join(xs)`; `Text.SplitJoin` and `Text.JoinSplit` make it the inverse of `split` on separator-free pieces |
| Text.JoinSplit | feedback.py:81 | splitting a join of separator-free pieces gives the pieces back |
| Text.Repeat | feedback.py:147 | `c * n` has length `n` and every character is `c` |
| Text.FirstLine | feedback.py:172 | the first line is a prefix of the text with no line break, followed in the text by a line break when shorter |
| Text.FirstLineOf | feedback.py:172-173 | the first line of `a + "\n" + b` is `a` when `a` has no line break |
| Recipients.CleanWellFormed | feedback.py:119 | cleaning keeps at most as many entries as pieces, each non-empty and trimmed, and adds no comma |
| Recipients.Kept | feedback.py:119 | one piece's contribution to the comprehension: its stripped text, or nothing when that is empty; characterised by `Recipients.ParseWithoutComma` |
| Recipients.Clean | feedback.py:119 | `[x.strip() for x in pieces if x.strip()]`; `Recipients.CleanWellFormed` gives its entries' shape and `Recipients.CleanConcat` its order |
| Recipients.CleanConcat | feedback.py:119 | the comprehension over two piece lists concatenated is the concatenation of the two results |
| Recipients.Parse | feedback.py:119 | line 119's comprehension on `value.split(',')`; characterised by `Recipients.ParseWellFormed`, `Recipients.ParseConcat` and `Recipients.ParseWithoutComma` |
| Recipients.ParseWellFormed | feedback.py:119 | every parsed entry is non-empty, has no leading or trailing whitespace, and has no comma |
| Recipients.ParseConcat | feedback.py:119 | entries keep their left-to-right order: parsing `a + "," + b` gives the entries of `a` then those of `b` |
| Recipients.ParseWithoutComma | feedback.py:119 | a comma-free text is one entry, its stripped self, or none when that is empty |
| Recipients.ParseLeadingSpace | feedback.py:119 | a space before an entry does not change the parsed list |
| Recipients.DisplayParse | feedback.py:81 | a list of non-empty, trimmed, comma-free entries shown joined with `", "` parses back to the same list |
| Recipients.Display | feedback.py:81 | `ValidRecipients and ', '.join(ValidRecipients) or ''`; `Recipients.DisplayParse` makes `Recipients.Parse` its inverse on well-formed lists |
| Recipients.ParseStable | feedback.py:119 | a parsed list shown and parsed again is unchanged |
| Recipients.PostRecipient | feedback.py:142-144 | a non-empty `to` on the allow-list is used, otherwise the first entry, so the result is always on the list; an empty list is the `IndexError` |
| Recipients.GetRecipient | feedback.py:89 | a non-empty `to` is taken unchecked, otherwise the first entry; it fails exactly when both are missing |
| Recipients.GetPostAgree | feedback.py:89 | GET and POST choose the same recipient exactly when GET's choice is on the allow-list |
| Compose.SenderOf | feedback.py:133 | the sender is `from` when given, otherwise `anonymous`, and never empty |
| Compose.MessageOf | feedback.py:134 | the message is `message` when given, otherwise `no message`, and never empty |
| Compose.BaseSubject | feedback.py:137 | the subject is the stripped `subject`, or `no subject` when that is empty, and never empty |
| Compose.SubjectOf | feedback.py:137-140 | the subject is never empty, and a non-empty prefix gives the stripped prefix, a space, then the base subject |
| Compose.SubjectEndsWithBase | feedback.py:138-140 | the final subject always ends with the base subject |
| Compose.Header | feedback.py:146 | `u'From: %s' % sender`; `Compose.Body` places it first, and `Compose.ReadComposed` reads the sender back out of it |
| Compose.Body | feedback.py:146-147 | the body is the header `From: <sender>`, a line break, exactly as many dashes as the header has characters, an empty line, then the message |
| Compose.ReadComposed | feedback.py:146-147 | a body composed from a sender without a line break reads back to that sender and message |
| Compose.ComposedRead | feedback.py:146-147 | every text that reads back as a letter is the body composed from that letter |
| FeedbackSettings.OrEmpty | feedback.py:77-83 | `value or ''` is non-empty exactly when the value is set and non-empty, and is then that value |
| FeedbackSettings.LoadSettings | feedback.py:183-188 | the stored record when there is one, otherwise recipients `["info@example.com"]`, the default style sheet and every other field unset |
| FeedbackSettings.GetAttr | feedback.py:116-120 | a property's value has the property's kind: a list for the recipients, a string or unset otherwise |
| FeedbackSettings.SetAttr | feedback.py:120 | the assigned property takes the value and every other property keeps its own |
| FeedbackSettings.RequestValue | feedback.py:117-119 | the recipient list is the parse of its request argument, every other property the raw argument |
| FeedbackSettings.AttrAfterApply | feedback.py:116-120 | after assigning a sequence of fields, a field holds its request value if it was visited, its old value otherwise |
| FeedbackSettings.ApplyFields | feedback.py:116-120 | the record after the save loop has visited a list of fields; `FeedbackSettings.AttrAfterApply` and `FeedbackSettings.SaveOverwrites` characterise it |
| FeedbackSettings.Saved | feedback.py:116-121 | the record a save stores; `FeedbackSettings.SavedAttr` gives each property as the request's value, and `FeedbackSettings.SaveOverwrites` shows every complete save loop ends there |
| FeedbackSettings.SavedAttr | feedback.py:117-120 | each saved property is the request's value for it |
| FeedbackSettings.SameAttrs | feedback.py:25-30 | a settings record is determined by its five properties |
| FeedbackSettings.SaveOverwrites | feedback.py:116-121 | a save that visits every field, in any order, stores the request's values whatever the record held before |
| FeedbackSettings.AllFieldsListed | feedback.py:116 | the save loop visits every property of the record |
| FeedbackSettings.Settings.Load | feedback.py:183-188 | the loaded settings object holds the record `LoadSettings` describes |
| FeedbackSettings.Settings.Assign | feedback.py:120 | an in-place `setattr` changes the object as `SetAttr` changes its record |
| FeedbackSettings.Settings.Save | feedback.py:116-121 | after the loop the object holds the values taken from the request, field by field, overwriting all its old values |
| FeedbackSettings.SaveShown | feedback.py:76-84 | submitting the settings page as shown keeps a well-formed recipient list and turns every unset string into the empty string |
| FeedbackSettings.ViewOf | feedback.py:76-84 | the values the settings page fills in; `FeedbackSettings.SaveShown` shows that submitting them unchanged keeps the recipient list |
| FeedbackSettings.ResaveUnchanged | feedback.py:116-121 | after one save, viewing the page and saving it unchanged stores the same record again |
| Handler.CheckAdmin | feedback.py:156-162 | access is granted exactly to admins; no user gets a login redirect back to the URL, a non-admin the 403 page |
| Handler.CaptchaEnabled | feedback.py:165 | the captcha applies only when both keys are non-empty; `Handler.CheckCaptcha` skips the verifier exactly when it is false |
| Handler.Accepts | feedback.py:172-173 | `split('\n')[0] == 'true'` on the verifier's reply; `Handler.AcceptsIff` states exactly which replies it accepts |
| Handler.AcceptsIff | feedback.py:172-173 | the verifier's reply passes exactly when it is `true` or begins with `true` and a line break |
| Handler.CheckCaptcha | feedback.py:165-176 | without both keys it passes and calls nothing; with both it calls the verifier with the private key, remote address and the two submitted fields, and passes exactly on an accepting reply |
| Handler.FormViewOf | feedback.py:91-103 | the form shows the sent notice iff `sent` is an argument, `back` or the URL with `?sent`, the user's email or nothing, a fixed subject exactly when one is given, the style sheet or nothing, and the public key or `None` in the captcha script |
| Handler.Format | feedback.py:103 | `'%s' % value`, which renders an unset key as `None`; `Handler.FormViewOf` states the key it places in the captcha script |
| Handler.BuildFormFields | feedback.py:93-104 | the fields are appended in order: the notice only after a send, the back and sender fields, a subject input only when no subject is fixed, the text, the captcha script and the button |
| Handler.HandleGet | feedback.py:71-109 | the settings page only for admins; otherwise the feedback form, or a server error exactly when neither `to` nor a recipient exists |
| Handler.HandlePost | feedback.py:111-150 | a settings POST stores the request's values only for admins and mails nothing; a message POST writes nothing, makes exactly the verifier call `CheckCaptcha` describes (none unless both keys are set), and on a wrong answer replies `Wrong answer.` without mail; otherwise it mails exactly when a recipient exists, to the chosen allowed recipient with the defaulted sender and subject and the composed body, and redirects to the raw `back` |
| Handler.MailReadsBack | feedback.py:133-149 | the body of a sent mail reads back as the defaulted sender and message when the sender field has no line break |
| Handler.SettingsPageRoundTrip | feedback.py:76-121 | an admin who opens the settings page and saves it unchanged keeps a well-formed recipient list |
| Handler.EmptyListBreaksForms | feedback.py:89-144 | once a recipient text with no entry is saved, GET without `to` fails and no message POST sends mail |

## Left out

- **Platform services.** The datastore (`FeedbackSettings.all().get()`, `put()`), `mail.send_mail`, `urlfetch` and `users` are inputs or outputs of the model: the stored record, the user, the verifier's reply, and the mail, verification call and saved record in `Effect`. Their own failures (a mail service error, a fetch timeout) are not modelled.
- **HTML.** The templates `SETTINGS_HTML` and `FORM_HTML` and `escape_attr` are not rendered. The pages are modelled by the values they are filled with (`View`, `FormView`, `FormPart`), without escaping. The settings round-trip lemmas (`FeedbackSettings.SaveShown`, `FeedbackSettings.ResaveUnchanged`, `Handler.SettingsPageRoundTrip`) assume the browser resubmits every value verbatim; a real browser decodes entities such as `&amp;` in the unescaped `value` attributes, drops the line break right after `<textarea>` (the default style sheet starts with one) and sends line breaks as CRLF.
- **`reply`.** Its `Content-Type` header suffix and the UTF-8 encoding of the body are not modelled. WSGI dispatch (`feedback.py:198-201`) is not modelled either.
- **Debug branch.** The disabled branch at `feedback.py:124-126` can never run.
- **Concurrency.** Two admins saving at the same time race, and the last write wins. The model treats each request on its own.
- **Datastore validation.** It is not modelled: for instance, a `StringProperty` refuses values longer than 500 characters or containing line breaks.
- **Request arguments.** Only one value per argument is modelled. Repeated arguments are not.
- **Non-ASCII captcha fields.** `urllib.urlencode` (`feedback.py:194`) converts each payload value with `str()`, so a non-ASCII challenge or response field raises before the verifier is called; the model records the `VerifyCall` regardless.
- **Exceptions.** The only exception modelled is the `IndexError` on an empty recipient list, as `ServerError`.
- **Settings save as a function.** `post` has to be a function in the model, and a function cannot call a method. So it computes the saved record with `ApplyFields` over the field list. The in-place update of the settings object is `FeedbackSettings.Settings.Save`, and its contract proves that it produces the same record.
