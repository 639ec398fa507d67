/**
 * `POST /api/send-card`: checks the three required fields, checks the recipient's
 * shape, builds the message and hands it to the e-mail provider, then maps the
 * outcome to a JSON response.
 */
module SendCard {
  import opened Wrappers
  import opened Text
  import opened Profiles
  import opened EmailShape

  /** The decoded JSON body; an absent or `null` member is `None`. */
  datatype Body = Body(recipientEmail: Option<string>, senderName: Option<string>, cardUrl: Option<string>)

  /** The message handed to the e-mail provider. */
  datatype Email = Email(from: string, to: seq<string>, subject: string, html: string)

  /** What the provider's `send` call does: returns an id, returns an error, or throws. */
  datatype Delivery = Accepted(id: string) | Rejected(reason: string) | Threw

  datatype Response = Response(status: int, success: bool, message: string, emailId: Option<string>)

  /** The response together with the message that was handed to the provider, if any. */
  datatype Handled = Handled(response: Response, sent: Option<Email>)

  const MissingFieldsMsg: string := "缺少必要參數"
  const InvalidEmailMsg: string := "無效的郵件地址"
  const DeliveryFailedMsg: string := "郵件發送失敗"
  const SentMsg: string := "名片已成功發送"
  const RetryLaterMsg: string := "發送失敗，請稍後再試"

  const Sender: string := "Digital Card <noreply@resend.dev>"
  const SubjectSuffix: string := " shared their digital business card with you"

  /** The fixed parts of an HTML template, around two interpolations of a name and two of a URL. */
  datatype HtmlTemplate = HtmlTemplate(head: string, afterName: string, afterSecondName: string,
                                       afterUrl: string, tail: string)

  /** The template's parts with the name, the name, the URL and the URL spliced in between. */
  function Splice(h: string, a: string, b: string, c: string, t: string, n: string, u: string): string {
    h + (n + (a + (n + (b + (u + (c + (u + t)))))))
  }

  /**
   * The template filled in: the name lands right after `head` and again after `afterName`,
   * the URL after `afterSecondName` and again after `afterUrl`, each verbatim.
   */
  function Fill(t: HtmlTemplate, name: string, url: string): (html: string)
    ensures var n, u := |name|, |url|;
      var i1 := |t.head|;
      var i2 := i1 + n + |t.afterName|;
      var i3 := i2 + n + |t.afterSecondName|;
      var i4 := i3 + u + |t.afterUrl|;
      && |html| == i4 + u + |t.tail|
      && html[i1..i1 + n] == name && html[i2..i2 + n] == name
      && html[i3..i3 + u] == url && html[i4..i4 + u] == url
  {
    var h, a, b, c, tl := t.head, t.afterName, t.afterSecondName, t.afterUrl, t.tail;
    FirstNameSlot(h, a, b, c, tl, name, url);
    SecondNameSlot(h, a, b, c, tl, name, url);
    FirstUrlSlot(h, a, b, c, tl, name, url);
    SecondUrlSlot(h, a, b, c, tl, name, url);
    Splice(h, a, b, c, tl, name, url)
  }

  /** Filling any template produces a body that contains both values. */
  lemma FillContains(t: HtmlTemplate, name: string, url: string)
    ensures Contains(Fill(t, name, url), name) && Contains(Fill(t, name, url), url)
  {
    var html := Fill(t, name, url);
    ContainsAt(html, name, |t.head|);
    ContainsAt(html, url, |t.head| + 2 * |name| + |t.afterName| + |t.afterSecondName|);
  }

  lemma FirstNameSlot(h: string, a: string, b: string, c: string, t: string, n: string, u: string)
    ensures |Splice(h, a, b, c, t, n, u)| == |h| + |a| + |b| + |c| + |t| + 2 * |n| + 2 * |u|
    ensures Splice(h, a, b, c, t, n, u)[|h|..|h| + |n|] == n
  {
    var r1 := a + (n + (b + (u + (c + (u + t)))));
    Shift(h, n + r1, 0, |n|);
    assert (n + r1)[0..|n|] == n;
  }

  lemma SecondNameSlot(h: string, a: string, b: string, c: string, t: string, n: string, u: string)
    ensures |Splice(h, a, b, c, t, n, u)| == |h| + |a| + |b| + |c| + |t| + 2 * |n| + 2 * |u|
    ensures Splice(h, a, b, c, t, n, u)[|h| + |n| + |a|..|h| + |n| + |a| + |n|] == n
  {
    var r3 := b + (u + (c + (u + t)));
    var r2 := n + r3;
    var r1 := a + r2;
    Shift(h, n + r1, |n| + |a|, |n| + |a| + |n|);
    Shift(n, r1, |a|, |a| + |n|);
    Shift(a, r2, 0, |n|);
    assert r2[0..|n|] == n;
  }

  lemma FirstUrlSlot(h: string, a: string, b: string, c: string, t: string, n: string, u: string)
    ensures |Splice(h, a, b, c, t, n, u)| == |h| + |a| + |b| + |c| + |t| + 2 * |n| + 2 * |u|
    ensures var i := |h| + 2 * |n| + |a| + |b|;
      Splice(h, a, b, c, t, n, u)[i..i + |u|] == u
  {
    var r5 := c + (u + t);
    var r4 := u + r5;
    var r3 := b + r4;
    var r2 := n + r3;
    var r1 := a + r2;
    var k := |n| + |b|;
    Shift(h, n + r1, |n| + |a| + k, |n| + |a| + k + |u|);
    Shift(n, r1, |a| + k, |a| + k + |u|);
    Shift(a, r2, k, k + |u|);
    Shift(n, r3, |b|, |b| + |u|);
    Shift(b, r4, 0, |u|);
    assert r4[0..|u|] == u;
  }

  lemma SecondUrlSlot(h: string, a: string, b: string, c: string, t: string, n: string, u: string)
    ensures |Splice(h, a, b, c, t, n, u)| == |h| + |a| + |b| + |c| + |t| + 2 * |n| + 2 * |u|
    ensures var i := |h| + 2 * |n| + |a| + |b| + |u| + |c|;
      Splice(h, a, b, c, t, n, u)[i..i + |u|] == u
  {
    var r6 := u + t;
    var r5 := c + r6;
    var r4 := u + r5;
    var r3 := b + r4;
    var r2 := n + r3;
    var r1 := a + r2;
    var k := |n| + |b| + |u| + |c|;
    Shift(h, n + r1, |n| + |a| + k, |n| + |a| + k + |u|);
    Shift(n, r1, |a| + k, |a| + k + |u|);
    Shift(a, r2, k, k + |u|);
    Shift(n, r3, |b| + |u| + |c|, |b| + |u| + |c| + |u|);
    Shift(b, r4, |u| + |c|, |u| + |c| + |u|);
    Shift(u, r5, |c|, |c| + |u|);
    Shift(c, r6, 0, |u|);
    assert r6[0..|u|] == u;
  }

  /** A slice beyond a prefix is the same slice of the rest. */
  lemma Shift(p: string, q: string, x: nat, y: nat)
    requires x <= y <= |q|
    ensures (p + q)[|p| + x..|p| + y] == q[x..y]
  {
  }

  /** The card e-mail's template (the CSS rules of its style block are not reproduced). */
  const CardTemplate: HtmlTemplate := HtmlTemplate(
    "<!DOCTYPE html><html><head><meta charset=\"utf-8\"><meta name=\"viewport\" content=\"width=device-width, initial-scale=1.0\">"
    + "<title>Digital Business Card</title><style></style></head><body><div class=\"container\"><div class=\"header\">"
    + "<h1 class=\"title\">📇 Digital Business Card</h1><p class=\"subtitle\">You've received a digital business card!</p>"
    + "</div><div class=\"card-preview\"><div class=\"sender-name\">",
    "</div><div class=\"message\">wants to connect with you</div></div><div style=\"text-align: center;\">"
    + "<p style=\"font-size: 18px; margin-bottom: 20px;\"><strong>",
    "</strong> has shared their digital business card with you. "
    + "Click the button below to view their contact information and connect!</p><a href=\"",
    "\" class=\"cta-button\">🔗 View Digital Card</a></div><div class=\"features\">"
    + "<div class=\"feature\"><span class=\"feature-icon\">📱</span><div><strong>Mobile Friendly</strong><br>View the card on any device, anywhere</div></div>"
    + "<div class=\"feature\"><span class=\"feature-icon\">🔗</span><div><strong>Direct Contact</strong><br>Access all contact information and social media links</div></div>"
    + "<div class=\"feature\"><span class=\"feature-icon\">💾</span><div><strong>Save to Contacts</strong><br>Easily save the contact information to your phone</div></div>"
    + "</div><div class=\"footer\"><p>This digital business card was sent via Smart Connect Everywhere</p>"
    + "<p style=\"margin-top: 10px;\"><a href=\"",
    "\" style=\"color: #075065;\">View Card</a></p></div></div></body></html>")

  /** The HTML body of the card e-mail: the sender name and the card URL, unescaped. */
  function EmailHtml(senderName: string, cardUrl: string): (html: string)
    ensures Contains(html, senderName) && Contains(html, cardUrl)
  {
    FillContains(CardTemplate, senderName, cardUrl);
    Fill(CardTemplate, senderName, cardUrl)
  }

  /** `!x` for a JSON member that should be a string. */
  predicate Missing(v: Option<string>) {
    !Truthy(v)
  }

  /** The message for a validated request, with the body filled into `t`. */
  function Compose(t: HtmlTemplate, recipientEmail: string, senderName: string, cardUrl: string): (m: Email)
    ensures m.to == [recipientEmail] && m.from == Sender
    ensures m.subject == senderName + SubjectSuffix
    ensures m.html == Fill(t, senderName, cardUrl)
  {
    Email(Sender, [recipientEmail], senderName + SubjectSuffix, Fill(t, senderName, cardUrl))
  }

  /**
   * The handler, for the HTML template `t`. `body == None` is a body that does not parse
   * (`request.json()` throws) or parses to JSON `null` (its destructuring throws); both end
   * in the same 500. The required-field check comes first, then the shape check;
   * only a request passing both reaches the provider, and the provider's outcome decides
   * between 200 and 500.
   */
  function Respond(t: HtmlTemplate, body: Option<Body>, delivery: Delivery): (h: Handled)
    ensures body.None? ==> h == Handled(Response(500, false, RetryLaterMsg, None), None)
    ensures body.Some? && (Missing(body.value.recipientEmail) || Missing(body.value.senderName) || Missing(body.value.cardUrl))
      ==> h == Handled(Response(400, false, MissingFieldsMsg, None), None)
    ensures h.response.status == 400 && h.response.message == InvalidEmailMsg <==>
      body.Some? && !Missing(body.value.recipientEmail) && !Missing(body.value.senderName) && !Missing(body.value.cardUrl)
      && !IsEmailShaped(body.value.recipientEmail.value)
    ensures h.sent.Some? <==>
      body.Some? && !Missing(body.value.recipientEmail) && !Missing(body.value.senderName) && !Missing(body.value.cardUrl)
      && IsEmailShaped(body.value.recipientEmail.value)
    ensures h.sent.Some? ==>
      h.sent.value == Compose(t, body.value.recipientEmail.value, body.value.senderName.value, body.value.cardUrl.value)
    ensures h.response.success <==> h.sent.Some? && delivery.Accepted?
    ensures h.response.success ==> h.response == Response(200, true, SentMsg, Some(delivery.id))
    ensures h.sent.Some? && delivery.Rejected? ==> h.response == Response(500, false, DeliveryFailedMsg, None)
    ensures h.sent.Some? && delivery.Threw? ==> h.response == Response(500, false, RetryLaterMsg, None)
  {
    if body.None? then Handled(Response(500, false, RetryLaterMsg, None), None)
    else
      var b := body.value;
      if Missing(b.recipientEmail) || Missing(b.senderName) || Missing(b.cardUrl) then
        Handled(Response(400, false, MissingFieldsMsg, None), None)
      else if !IsEmailShaped(b.recipientEmail.value) then
        Handled(Response(400, false, InvalidEmailMsg, None), None)
      else
        var email := Compose(t, b.recipientEmail.value, b.senderName.value, b.cardUrl.value);
        match delivery
        case Rejected(_) => Handled(Response(500, false, DeliveryFailedMsg, None), Some(email))
        case Accepted(id) => Handled(Response(200, true, SentMsg, Some(id)), Some(email))
        case Threw => Handled(Response(500, false, RetryLaterMsg, None), Some(email))
  }

  /**
   * `POST /api/send-card`: the handler with the card e-mail's template. A message it sends has
   * the card e-mail as its body, which contains the sender name and the card URL.
   */
  function Post(body: Option<Body>, delivery: Delivery): (h: Handled)
    ensures h.sent.Some? ==>
      body.Some? && !Missing(body.value.recipientEmail) && !Missing(body.value.senderName) && !Missing(body.value.cardUrl)
    ensures h.sent.Some? ==>
      var b := body.value;
      && h.sent.value.html == EmailHtml(b.senderName.value, b.cardUrl.value)
      && Contains(h.sent.value.html, b.senderName.value) && Contains(h.sent.value.html, b.cardUrl.value)
  {
    var h := Respond(CardTemplate, body, delivery);
    if h.sent.Some? then
      var html := EmailHtml(body.value.senderName.value, body.value.cardUrl.value);
      assert h.sent.value.html == html;
      h
    else h
  }

  /** The template shapes only the message body: the response never depends on it. */
  lemma ResponseIndependentOfTemplate(t1: HtmlTemplate, t2: HtmlTemplate, body: Option<Body>, delivery: Delivery)
    ensures Respond(t1, body, delivery).response == Respond(t2, body, delivery).response
  {
  }

  /**
   * A message that is sent goes to exactly the recipient, carries the fixed subject, and its
   * body contains the sender name and the card URL verbatim.
   */
  lemma SentMessageContents(t: HtmlTemplate, body: Option<Body>, delivery: Delivery)
    ensures var h := Respond(t, body, delivery);
      h.sent.Some? ==>
        var b := body.value;
        && h.sent.value.to == [b.recipientEmail.value]
        && h.sent.value.subject == b.senderName.value + SubjectSuffix
        && Contains(h.sent.value.html, b.senderName.value) && Contains(h.sent.value.html, b.cardUrl.value)
  {
    var h := Respond(t, body, delivery);
    if h.sent.Some? {
      FillContains(t, body.value.senderName.value, body.value.cardUrl.value);
    }
  }

  /** The message is sent exactly to a recipient the regular expression accepts. */
  lemma SentOnlyToPatternAddresses(t: HtmlTemplate, body: Option<Body>, delivery: Delivery)
    ensures var h := Respond(t, body, delivery);
      h.sent.Some? ==> |h.sent.value.to| == 1 && MatchesPattern(h.sent.value.to[0])
  {
    if Respond(t, body, delivery).sent.Some? {
      ShapeIsPattern(body.value.recipientEmail.value);
    }
  }

  /** No 400 response ever reports the provider, and no provider outcome can produce a 400. */
  lemma ValidationIndependentOfDelivery(t: HtmlTemplate, body: Option<Body>, d1: Delivery, d2: Delivery)
    ensures Respond(t, body, d1).response.status == 400 <==> Respond(t, body, d2).response.status == 400
    ensures Respond(t, body, d1).response.status == 400 ==> Respond(t, body, d1) == Respond(t, body, d2)
  {
  }

  /** The four fixed messages of a refused request. */
  predicate IsFailureMessage(m: string) {
    m == MissingFieldsMsg || m == InvalidEmailMsg || m == DeliveryFailedMsg || m == RetryLaterMsg
  }

  /** A refused request is answered with one of the four fixed failure messages. */
  lemma FailureMessages(t: HtmlTemplate, body: Option<Body>, delivery: Delivery)
    ensures var r := Respond(t, body, delivery).response;
      !r.success ==> IsFailureMessage(r.message)
  {
  }
}
