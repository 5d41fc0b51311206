/**
 * How a submitted message becomes a mail: the defaults for empty fields,
 * the subject with its optional prefix, and the body's header layout.
 */
module Compose {
  import opened Wrappers
  import opened Text

  const ANONYMOUS := "anonymous"
  const NO_MESSAGE := "no message"
  const NO_SUBJECT := "no subject"
  const HEADER_LABEL := "From: "

  /** `request.get('from') or 'anonymous'` */
  function SenderOf(from: string): (r: string)
    ensures r != ""
    ensures from != "" ==> r == from
    ensures from == "" ==> r == ANONYMOUS
  {
    if from != "" then from else ANONYMOUS
  }

  /** `request.get('message') or 'no message'` */
  function MessageOf(message: string): (r: string)
    ensures r != ""
    ensures message != "" ==> r == message
    ensures message == "" ==> r == NO_MESSAGE
  {
    if message != "" then message else NO_MESSAGE
  }

  /** `request.get('subject').strip() or 'no subject'` */
  function BaseSubject(subject: string): (r: string)
    ensures r != ""
    ensures Strip(subject) != "" ==> r == Strip(subject)
    ensures Strip(subject) == "" ==> r == NO_SUBJECT
  {
    var s := Strip(subject);
    if s != "" then s else NO_SUBJECT
  }

  /** The mail subject: the base subject, after the stripped prefix and a space when a prefix is given. */
  function SubjectOf(subject: string, prefix: string): (r: string)
    ensures r != ""
    ensures prefix == "" ==> r == BaseSubject(subject)
    ensures prefix != "" ==> r == Strip(prefix) + " " + BaseSubject(subject)
  {
    var s := BaseSubject(subject);
    if prefix != "" then Strip(prefix) + " " + s else s
  }

  /** `u'From: %s' % sender` */
  function Header(sender: string): string
  {
    HEADER_LABEL + sender
  }

  /**
   * The mail body: the header line, a line of dashes exactly as long as the
   * header, an empty line, then the message.
   */
  function Body(sender: string, message: string): (r: string)
    ensures var k := |Header(sender)|;
      |r| == 2 * k + 3 + |message| &&
      r[..k] == Header(sender) && r[k] == '\n' &&
      (forall i :: k < i <= 2 * k ==> r[i] == '-') &&
      r[2 * k + 1..2 * k + 3] == "\n\n" && r[2 * k + 3..] == message
  {
    var h := Header(sender);
    var text := h + "\n" + Repeat('-', |h|) + "\n\n" + message;
    assert text[|h| + 1..2 * |h| + 1] == Repeat('-', |h|);
    text
  }

  /** What a mail body can be read back into. */
  datatype Letter = Letter(sender: string, message: string)

  /**
   * Reads a mail body back: the first line must be a header, followed by a
   * dash line of the header's length and an empty line; the rest is the
   * message.
   */
  function ReadBody(text: string): Option<Letter>
  {
    var h := FirstLine(text);
    var k := |h|;
    if HEADER_LABEL <= h && 2 * k + 3 <= |text| &&
       text[k + 1..2 * k + 1] == Repeat('-', k) && text[2 * k + 1..2 * k + 3] == "\n\n"
    then Some(Letter(h[|HEADER_LABEL|..], text[2 * k + 3..]))
    else None
  }

  /** A sender without a line break is read back from the body, with the message. */
  lemma ReadComposed(sender: string, message: string)
    requires '\n' !in sender
    ensures ReadBody(Body(sender, message)) == Some(Letter(sender, message))
  {
    var h := Header(sender);
    var k := |h|;
    var text := Body(sender, message);
    assert '\n' !in h;
    assert text == h + "\n" + text[k + 1..];
    FirstLineOf(h, text[k + 1..]);
    assert text[k + 1..2 * k + 1] == Repeat('-', k);
    assert h[|HEADER_LABEL|..] == sender;
  }

  /** Every body that reads back is the body composed from what it reads back to. */
  lemma ComposedRead(text: string)
    requires ReadBody(text).Some?
    ensures Body(ReadBody(text).value.sender, ReadBody(text).value.message) == text
  {
    var h := FirstLine(text);
    var k := |h|;
    var l := ReadBody(text).value;
    assert h == HEADER_LABEL + l.sender;
    assert text[..k] == h;
    assert text == text[..k] + [text[k]] + text[k + 1..2 * k + 1] + text[2 * k + 1..2 * k + 3] + text[2 * k + 3..];
  }

  /** The subject always ends with the base subject, whatever the prefix. */
  lemma SubjectEndsWithBase(subject: string, prefix: string)
    ensures var r := SubjectOf(subject, prefix); var b := BaseSubject(subject);
      |b| <= |r| && r[|r| - |b|..] == b
  {
  }
}
