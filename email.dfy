/**
 * The account-confirmation email (backend/utilService/index.go): the link,
 * the HTML body, the request payload for the Mailtrap sending API, and the
 * checks `SendEmail` makes around them.
 *
 * The HTTP call of `sendEmailRequest` is an oracle `send(url, apiToken, data)`
 * returning the error it reports, if any.
 */
module Email {
  import opened Values

  const ConfirmationBase := "http://localhost:3000/verify-email?token="

  /** The template of `generateConfirmationEmailHTML` up to its only verb,
      `%s`, which sits inside the button's `href`. */
  const HtmlHead :=
    "\n" +
    "\t\t<!DOCTYPE html>\n" +
    "\t\t<html lang=\"en\">\n" +
    "\t\t<head>\n" +
    "\t\t\t<meta charset=\"UTF-8\" />\n" +
    "\t\t\t<meta name=\"viewport\" content=\"width=device-width, initial-scale=1.0\" />\n" +
    "\t\t\t<title>Email Confirmation</title>\n" +
    "\t\t\t<style>\n" +
    "\t\t\t\t/* Styles omitted for brevity */\n" +
    "\t\t\t</style>\n" +
    "\t\t</head>\n" +
    "\t\t<body>\n" +
    "\t\t\t<div class=\"container\">\n" +
    "\t\t\t\t<div class=\"header\">\n" +
    "\t\t\t\t\t<img src=\"https://via.placeholder.com/100x100\" alt=\"Company Logo\" />\n" +
    "\t\t\t\t\t<h1>Email Confirmation</h1>\n" +
    "\t\t\t\t</div>\n" +
    "\t\t\t\t<div class=\"content\">\n" +
    "\t\t\t\t\t<p>Thank you for signing up! Please confirm your email address by clicking the button below:</p>\n" +
    "\t\t\t\t\t" + ButtonOpen

  const ButtonOpen := "<a href=\""
  const ButtonClose := "\" class=\"button\">Confirm Email</a>\n"

  /** The template after the verb. */
  const HtmlTail :=
    ButtonClose +
    "\t\t\t\t</div>\n" +
    "\t\t\t</div>\n" +
    "\t\t</body>\n" +
    "\t\t</html>\n" +
    "\t"

  /** `fmt.Sprintf(".../verify-email?token=%s", token)`: the token is
      appended verbatim, with no URL escaping. */
  function ConfirmationLink(token: string): string {
    ConfirmationBase + token
  }

  /** `generateConfirmationEmailHTML`: `%s` (the template's only verb) is
      replaced by the link. */
  function ConfirmationHtml(token: string): string {
    HtmlHead + ConfirmationLink(token) + HtmlTail
  }

  /** The text between the template's head and tail, if `html` has that form. */
  function LinkFromHtml(html: string): Option<string> {
    if |HtmlHead| + |HtmlTail| <= |html|
       && html[..|HtmlHead|] == HtmlHead
       && html[|html| - |HtmlTail|..] == HtmlTail
    then Some(html[|HtmlHead|..|html| - |HtmlTail|])
    else None
  }

  /** The `token` query value of a confirmation link, if it is one. */
  function TokenFromLink(link: string): Option<string> {
    if |ConfirmationBase| <= |link| && link[..|ConfirmationBase|] == ConfirmationBase
    then Some(link[|ConfirmationBase|..])
    else None
  }

  /** The link is the base URL followed by the token, character for character. */
  lemma LinkRoundTrip(token: string)
    ensures TokenFromLink(ConfirmationLink(token)) == Some(token)
    ensures |ConfirmationLink(token)| == |ConfirmationBase| + |token|
  {
    var link := ConfirmationLink(token);
    assert link[..|ConfirmationBase|] == ConfirmationBase;
    assert link[|ConfirmationBase|..] == token;
  }

  /** The HTML is the fixed template with the link as its only substituted
      text, in the button's `href`: the link, and so the token, can be read
      back from it. */
  lemma HtmlRoundTrip(token: string)
    ensures LinkFromHtml(ConfirmationHtml(token)) == Some(ConfirmationLink(token))
    ensures TokenFromLink(LinkFromHtml(ConfirmationHtml(token)).value) == Some(token)
    ensures ButtonOpen <= HtmlHead[|HtmlHead| - |ButtonOpen|..] && ButtonClose <= HtmlTail
  {
    var link := ConfirmationLink(token);
    var html := ConfirmationHtml(token);
    assert html == HtmlHead + (link + HtmlTail);
    assert html[..|HtmlHead|] == HtmlHead;
    assert html[|html| - |HtmlTail|..] == HtmlTail;
    assert html[|HtmlHead|..|html| - |HtmlTail|] == link;
    LinkRoundTrip(token);
    assert HtmlHead[|HtmlHead| - |ButtonOpen|..] == ButtonOpen;
    assert HtmlTail[..|ButtonClose|] == ButtonClose;
  }

  /** Different tokens give different emails. */
  lemma HtmlInjective(t1: string, t2: string)
    requires ConfirmationHtml(t1) == ConfirmationHtml(t2)
    ensures t1 == t2
  {
    HtmlRoundTrip(t1);
    HtmlRoundTrip(t2);
  }

  const Subject := "Confirm Your Email"
  const SenderEmail := "mailtrap@example.com"
  const SenderName := "Mailtrap Test"

  /** `prepareEmailData`: the request payload, and the (always nil) error. */
  function PrepareEmailData(email: string, token: string): (Object, Option<string>) {
    (map[
      "from" := Obj(map["email" := Str(SenderEmail), "name" := Str(SenderName)]),
      "to" := Arr([Obj(map["email" := Str(email)])]),
      "subject" := Str(Subject),
      "html" := Str(ConfirmationHtml(token))
    ], None)
  }

  /** The payload has a fixed subject and sender, exactly one recipient (the
      given address) and the confirmation HTML for the token; there is never
      an error. */
  lemma EmailDataContents(email: string, token: string)
    ensures var (data, err) := PrepareEmailData(email, token);
            err.None?
            && data.Keys == {"from", "to", "subject", "html"}
            && data["subject"] == Str("Confirm Your Email")
            && data["from"] == Obj(map["email" := Str("mailtrap@example.com"), "name" := Str("Mailtrap Test")])
            && data["to"].Arr? && |data["to"].items| == 1
            && data["to"].items[0] == Obj(map["email" := Str(email)])
            && data["html"] == Str(ConfirmationHtml(token))
  {
  }

  const ApiUrl := "https://sandbox.api.mailtrap.io/api/send/3139740"

  /** The API token is a non-empty constant; its text is not reproduced. */
  const ApiToken := "mailtrap-api-token"

  datatype EmailError =
    | MissingConfiguration
    | PrepareFailed(cause: string)
    | SendFailed(cause: string)

  /** The message of the error `SendEmail` returns (`%w` keeps the cause's text). */
  function Message(e: EmailError): string {
    match e
    case MissingConfiguration => "missing email API configuration"
    case PrepareFailed(cause) => "failed to prepare email data: " + cause
    case SendFailed(cause) => "failed to send email: " + cause
  }

  /** `SendEmail`. */
  function SendEmail(email: string, token: string, send: (string, string, Object) -> Option<string>): Option<EmailError> {
    if ApiUrl == "" || ApiToken == "" then Some(MissingConfiguration)
    else
      var (data, err) := PrepareEmailData(email, token);
      if err.Some? then Some(PrepareFailed(err.value))
      else
        var sent := send(ApiUrl, ApiToken, data);
        if sent.Some? then Some(SendFailed(sent.value)) else None
  }

  /** Neither the configuration check nor the preparation can fail: the
      outcome is that of the request, made with the fixed URL and the
      prepared payload. */
  lemma SendEmailOutcome(email: string, token: string, send: (string, string, Object) -> Option<string>)
    ensures ApiUrl != "" && ApiToken != ""
    ensures var sent := send(ApiUrl, ApiToken, PrepareEmailData(email, token).0);
            var r := SendEmail(email, token, send);
            (r.None? <==> sent.None?)
            && (sent.Some? ==> (r == Some(SendFailed(sent.value))
                                && Message(r.value) == "failed to send email: " + sent.value))
            && r != Some(MissingConfiguration)
            && !(r.Some? && r.value.PrepareFailed?)
  {
  }
}
