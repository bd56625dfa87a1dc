/**
 * Sending a chat event to the Discord webhook: the content is rendered from
 * the template, the address is taken from its field with surrounding
 * whitespace removed, nothing is sent to a blank address, and the reply of
 * the post is classified as a success or a failure with its reason.
 *
 * The post itself is a network call; its reply is a parameter here.
 */
module Webhook {
  import opened Wrappers
  import opened Text
  import opened Platform
  import opened Template

  /** The reply to a post: an HTTP status with its body, or the text of the exception the request raised. */
  datatype Response = Status(code: int, body: string) | TransportError(message: string)

  /** What a post amounts to: whether it succeeded and, when it did not, why. */
  datatype Outcome = Outcome(success: bool, text: string)

  /** A post of `content` to the webhook at `url`. */
  datatype Post = Post(url: string, content: string)

  /** What handling one event does: the post it makes, if any, and the lines it adds to the application log. */
  datatype Delivery = Delivery(post: Option<Post>, log: seq<string>)

  const PreparingPrefix: string := "Preparando env\U{ED}o: "
  const SentLine: string := "Mensaje enviado correctamente al webhook."
  const SendErrorPrefix: string := "Error al enviar webhook: "
  const BlankLine: string := "Webhook vac\U{ED}o \U{2014} no se envi\U{F3} el mensaje."
  const TestText: string := "\U{1F514} Prueba de webhook desde Webhook Chat Watcher \U{1F9DF}"
  const TestBlankLine: string := "Introduce un webhook para probar."
  const TestSentLine: string := "Prueba de webhook enviada correctamente."
  const TestErrorPrefix: string := "Error en prueba de webhook: "

  /**
   * The classification of a reply: status 200 or 204 is a success with no
   * text; any other status is a failure reading `HTTP <code> - <body>`; an
   * exception is a failure carrying its text.
   */
  function Classify(response: Response): (o: Outcome)
    ensures o.success <==> response.Status? && (response.code == 200 || response.code == 204)
    ensures o.success ==> o.text == []
    ensures response.TransportError? ==> o.text == response.message
    ensures response.Status? && !o.success ==> StartsWith(o.text, "HTTP ")
  {
    match response
    case Status(code, body) =>
      if code == 200 || code == 204 then Outcome(true, [])
      else Outcome(false, "HTTP " + IntToString(code) + " - " + body)
    case TransportError(message) => Outcome(false, message)
  }

  /**
   * A failed status is reported with its code in decimal followed by the
   * body, so the code can be read back from the report.
   */
  lemma FailureNamesStatus(code: nat, body: string)
    requires code != 200 && code != 204
    ensures exists digits :: && digits != [] && IsDigits(digits) && (digits[0] == '0' ==> code == 0)
                             && DecimalValue(digits) == code
                             && Classify(Status(code, body)).text == "HTTP " + digits + " - " + body
  {
    NatToStringRoundTrip(code);
    var digits := NatToString(code);
    assert digits != [] && IsDigits(digits) && (digits[0] == '0' ==> code == 0) && DecimalValue(digits) == code;
  }

  /** A webhook that does not exist, as Discord reports it. */
  lemma ExampleNotFound()
    ensures Classify(Status(404, "Unknown Webhook")) == Outcome(false, "HTTP 404 - Unknown Webhook")
  {
    Decimal404();
  }

  /** The decimal text of 404. */
  lemma Decimal404()
    ensures IntToString(404) == "404"
  {
    assert NatToString(4) == "4";
    assert NatToString(40) == "40";
  }

  /**
   * The address used for a post: the field's text with surrounding
   * whitespace removed. It is blank exactly when the field holds nothing but
   * whitespace.
   */
  function Address(field: string): (url: string)
    ensures url != [] ==> url[0] !in Whitespace && url[|url| - 1] !in Whitespace
    ensures exists i, j :: 0 <= i <= j <= |field| && url == field[i..j]
    ensures url == [] <==> forall k :: 0 <= k < |field| ==> field[k] in Whitespace
  {
    StripBlank(field, Whitespace);
    Strip(field, Whitespace)
  }

  /** Only whitespace is cut from the field, and only from its two ends. */
  lemma AddressCutsWhitespace(field: string)
    ensures exists i, j :: 0 <= i <= j <= |field| && Address(field) == field[i..j]
                        && (forall k :: 0 <= k < i ==> field[k] in Whitespace)
                        && (forall k :: j <= k < |field| ==> field[k] in Whitespace)
  {
    assert Address(field) == Strip(field, Whitespace);
  }

  /** Trimming an address already trimmed changes nothing. */
  lemma AddressIdempotent(field: string)
    ensures Address(Address(field)) == Address(field)
  {
    StripIdempotent(field, Whitespace);
  }

  /** The content sent for a chat: the template rendered with the platform label, the user and the message. */
  function Content(template: string, platformId: string, user: string, message: string): string {
    Render(template, Label(platformId), user, message)
  }

  /**
   * What is done with the content once the address is known: nothing is
   * sent to a blank address, otherwise it is posted and the classified reply
   * is logged.
   */
  function Dispatch(url: string, content: string, response: Response): (d: Delivery)
    ensures d.post.None? <==> url == []
    ensures d.post.Some? ==> d.post.value == Post(url, content)
    ensures |d.log| == 1
    ensures d.log[0] == SentLine <==> d.post.Some? && Classify(response).success
    ensures d.log[0] == BlankLine <==> d.post.None?
    ensures d.post.Some? && !Classify(response).success ==> d.log[0] == SendErrorPrefix + Classify(response).text
  {
    assert SentLine[0] != SendErrorPrefix[0] && SentLine[0] != BlankLine[0] && BlankLine[0] != SendErrorPrefix[0];
    if url == [] then Delivery(None, [BlankLine])
    else
      var outcome := Classify(response);
      Delivery(Some(Post(url, content)), [if outcome.success then SentLine else SendErrorPrefix + outcome.text])
  }

  /**
   * Handling a chat event with the template and webhook fields as they are:
   * the content is logged, then either nothing is sent because the address
   * is blank, or it is posted and the classified reply is logged.
   */
  function NewChat(template: string, field: string, platformId: string, user: string, message: string,
                   response: Response): (d: Delivery)
    ensures d.post.None? <==> Address(field) == []
    ensures d.post.Some? ==> d.post.value == Post(Address(field), Content(template, platformId, user, message))
    ensures |d.log| == 2 && d.log[0] == PreparingPrefix + Content(template, platformId, user, message)
    ensures d.log[1] == SentLine <==> d.post.Some? && Classify(response).success
    ensures d.log[1] == BlankLine <==> d.post.None?
    ensures d.post.Some? && !Classify(response).success ==> d.log[1] == SendErrorPrefix + Classify(response).text
  {
    var content := Content(template, platformId, user, message);
    var result := Dispatch(Address(field), content, response);
    Delivery(result.post, [PreparingPrefix + content] + result.log)
  }

  /**
   * The test button: a blank address is refused, otherwise a fixed test
   * message is posted and the classified reply is logged.
   */
  function TestWebhook(field: string, response: Response): (d: Delivery)
    ensures d.post.None? <==> Address(field) == []
    ensures d.post.Some? ==> d.post.value == Post(Address(field), TestText)
    ensures |d.log| == 1
    ensures d.log[0] == TestSentLine <==> d.post.Some? && Classify(response).success
    ensures d.log[0] == TestBlankLine <==> d.post.None?
    ensures d.post.Some? && !Classify(response).success ==> d.log[0] == TestErrorPrefix + Classify(response).text
  {
    var url := Address(field);
    assert TestSentLine[0] != TestErrorPrefix[0] && TestSentLine[0] != TestBlankLine[0]
        && TestBlankLine[0] != TestErrorPrefix[0];
    if url == [] then Delivery(None, [TestBlankLine])
    else
      var outcome := Classify(response);
      Delivery(Some(Post(url, TestText)), [if outcome.success then TestSentLine else TestErrorPrefix + outcome.text])
  }
}
