/**
 * The owner's card page (`/digital-card`): loading the signed-in user's row, building
 * the shareable card URL, choosing which screen to render and what the card shows,
 * and the share dialog that posts to the send-card endpoint.
 */
module DigitalCard {
  import opened Wrappers
  import opened Text
  import opened Profiles
  import opened EmailShape
  import SendCard

  const SessionExpiredMsg: string := "登入已過期，請重新登入"
  const SignInFirstMsg: string := "請先登入"
  const ProfileLoadFailedMsg: string := "無法載入用戶資料"
  const UnexpectedErrorMsg: string := "發生未預期的錯誤"

  /** Where the page sends the browser two seconds after an authentication failure. */
  const SignInPath: string := "/"

  /** What `supabase.auth.getUser()` gives: an error, no user, a user, or an exception. */
  datatype AuthReply = AuthError | NoUser | SignedIn(id: UserId) | AuthThrew

  // ---------------------------------------------------------------------------
  // The card URL

  const CardPath: string := "/card/"

  /** `${origin}/card/${userId}` */
  function CardUrl(origin: string, id: UserId): (url: string)
    ensures StartsWith(url, origin + CardPath) && url[|origin + CardPath|..] == id
  {
    var url := origin + CardPath + id;
    assert url[..|origin + CardPath|] == origin + CardPath;
    url
  }

  /** The user id a URL under `origin` names through the `/card/{userId}` route. */
  function CardUserId(origin: string, url: string): Option<UserId> {
    if StartsWith(url, origin + CardPath) then Some(url[|origin + CardPath|..]) else None
  }

  /** The public route reads back exactly the user the URL was built for. */
  lemma CardUrlRoundTrip(origin: string, id: UserId)
    ensures CardUserId(origin, CardUrl(origin, id)) == Some(id)
  {
  }

  /** Different users of one origin get different card URLs. */
  lemma CardUrlInjective(origin: string, a: UserId, b: UserId)
    requires CardUrl(origin, a) == CardUrl(origin, b)
    ensures a == b
  {
    CardUrlRoundTrip(origin, a);
    CardUrlRoundTrip(origin, b);
  }

  // ---------------------------------------------------------------------------
  // What the card shows

  datatype ContactKind = MailLink | PhoneLink | WebLink

  datatype Link = Link(kind: ContactKind, href: string, text: string)

  /** The profile value behind a contact link. */
  function ContactValue(r: Profile, k: ContactKind): string {
    match k
    case MailLink => r.email
    case PhoneLink => r.mobile
    case WebLink => r.website
  }

  /** The link target the card uses for a contact value. */
  function ContactHref(k: ContactKind, v: string): string {
    match k
    case MailLink => "mailto:" + v
    case PhoneLink => "tel:" + v
    case WebLink => v
  }

  function KindRank(k: ContactKind): nat {
    match k
    case MailLink => 0
    case PhoneLink => 1
    case WebLink => 2
  }

  /** The e-mail, mobile and website links: each present iff its value is non-empty, in that order. */
  function ContactLinks(r: Profile): (links: seq<Link>)
    ensures forall i :: 0 <= i < |links| ==>
      var v := ContactValue(r, links[i].kind);
      v != "" && links[i].text == v && links[i].href == ContactHref(links[i].kind, v)
    ensures forall k :: ContactValue(r, k) != "" ==> exists i :: 0 <= i < |links| && links[i].kind == k
    ensures forall i, j :: 0 <= i < j < |links| ==> KindRank(links[i].kind) < KindRank(links[j].kind)
  {
    var mail := if r.email != "" then [Link(MailLink, "mailto:" + r.email, r.email)] else [];
    var phone := if r.mobile != "" then [Link(PhoneLink, "tel:" + r.mobile, r.mobile)] else [];
    var web := if r.website != "" then [Link(WebLink, r.website, r.website)] else [];
    var links := mail + phone + web;
    assert r.email != "" ==> links[0].kind == MailLink;
    assert r.mobile != "" ==> links[|mail|].kind == PhoneLink;
    assert r.website != "" ==> links[|mail| + |phone|].kind == WebLink;
    links
  }

  /** The "About" section: shown iff the bio is non-empty and is not the placeholder `n/a`. */
  function ShownBio(r: Profile): (bio: Option<string>)
    ensures bio.Some? <==> r.bio != "" && r.bio != "n/a"
    ensures bio.Some? ==> bio.value == r.bio
  {
    if r.bio != "" && r.bio != "n/a" then Some(r.bio) else None
  }

  datatype SocialIcon = SocialIcon(platform: Platform, href: string, title: string)

  /** The icon of a platform: its URL as the link and `Visit <label> profile` as the title. */
  function IconOf(r: Profile, p: Platform): SocialIcon
    requires Truthy(SocialUrl(r, p))
  {
    SocialIcon(p, SocialUrl(r, p).value, "Visit " + Label(p) + " profile")
  }

  /** The icons rendered for the platforms `ps`, one per platform whose URL is non-null and non-empty. */
  function IconsFor(r: Profile, ps: seq<Platform>): (icons: seq<SocialIcon>)
    ensures |icons| <= |ps|
    ensures forall i :: 0 <= i < |icons| ==>
      icons[i].platform in ps && Truthy(SocialUrl(r, icons[i].platform)) && icons[i] == IconOf(r, icons[i].platform)
    ensures forall p :: p in ps && Truthy(SocialUrl(r, p)) ==> IconOf(r, p) in icons
  {
    if ps == [] then []
    else
      var p := ps[0];
      var rest := IconsFor(r, ps[1..]);
      assert forall q :: q in ps ==> q == p || q in ps[1..];
      if Truthy(SocialUrl(r, p)) then [IconOf(r, p)] + rest else rest
  }

  /** A list of platforms in the fixed `SocialIcons` order, without repeats. */
  ghost predicate InPlatformOrder(ps: seq<Platform>) {
    forall i, j :: 0 <= i < j < |ps| ==> Rank(ps[i]) < Rank(ps[j])
  }

  /** Icons in the order of their platforms. */
  ghost predicate IconsInOrder(icons: seq<SocialIcon>) {
    forall i, j :: 0 <= i < j < |icons| ==> Rank(icons[i].platform) < Rank(icons[j].platform)
  }

  lemma {:induction false} IconsKeepOrder(r: Profile, ps: seq<Platform>)
    requires InPlatformOrder(ps)
    ensures IconsInOrder(IconsFor(r, ps))
  {
    if ps != [] {
      var p := ps[0];
      IconsKeepOrder(r, ps[1..]);
      var rest := IconsFor(r, ps[1..]);
      if Truthy(SocialUrl(r, p)) {
        LaterIconsRankHigher(r, ps);
        ConsInOrder(IconOf(r, p), rest);
      }
    }
  }

  /** The icons of the rest of an ordered list all come after its first platform. */
  lemma LaterIconsRankHigher(r: Profile, ps: seq<Platform>)
    requires InPlatformOrder(ps) && ps != []
    ensures forall i :: 0 <= i < |IconsFor(r, ps[1..])| ==> Rank(ps[0]) < Rank(IconsFor(r, ps[1..])[i].platform)
  {
    var rest := IconsFor(r, ps[1..]);
    forall i | 0 <= i < |rest| ensures Rank(ps[0]) < Rank(rest[i].platform) {
      var q := rest[i].platform;
      assert q in ps[1..];
      var k :| 0 <= k < |ps[1..]| && ps[1..][k] == q;
      assert ps[k + 1] == q;
    }
  }

  lemma ConsInOrder(first: SocialIcon, rest: seq<SocialIcon>)
    requires IconsInOrder(rest)
    requires forall i :: 0 <= i < |rest| ==> Rank(first.platform) < Rank(rest[i].platform)
    ensures IconsInOrder([first] + rest)
  {
    var icons := [first] + rest;
    forall i, j | 0 <= i < j < |icons| ensures Rank(icons[i].platform) < Rank(icons[j].platform) {
      assert icons[j] == rest[j - 1];
      if i > 0 {
        assert icons[i] == rest[i - 1];
      }
    }
  }

  /** The social icons of the card: all of `AllPlatforms` with a usable URL. */
  function SocialIconsOf(r: Profile): seq<SocialIcon> {
    IconsFor(r, AllPlatforms)
  }

  /** The platform list is the `SocialIcons` order itself. */
  lemma AllPlatformsInOrder()
    ensures InPlatformOrder(AllPlatforms)
  {
    assert forall i :: 0 <= i < |AllPlatforms| ==> Rank(AllPlatforms[i]) == i by {
      assert Rank(AllPlatforms[0]) == 0 && Rank(AllPlatforms[1]) == 1;
      assert Rank(AllPlatforms[2]) == 2 && Rank(AllPlatforms[3]) == 3;
      assert Rank(AllPlatforms[4]) == 4 && Rank(AllPlatforms[5]) == 5;
      assert Rank(AllPlatforms[6]) == 6 && Rank(AllPlatforms[7]) == 7;
    }
  }

  lemma EveryPlatformListed(p: Platform)
    ensures p in AllPlatforms
  {
    assert AllPlatforms[Rank(p)] == p;
  }

  /**
   * The icons on a card are exactly the platforms with a non-null, non-empty URL, each linking
   * to that URL, in the fixed platform order.
   */
  lemma SocialIconsSpec(r: Profile)
    ensures var icons := SocialIconsOf(r);
      && (forall p :: Truthy(SocialUrl(r, p)) ==> IconOf(r, p) in icons)
      && (forall i :: 0 <= i < |icons| ==> Truthy(SocialUrl(r, icons[i].platform)) && icons[i] == IconOf(r, icons[i].platform))
      && IconsInOrder(icons)
  {
    forall p | Truthy(SocialUrl(r, p)) ensures IconOf(r, p) in SocialIconsOf(r) {
      EveryPlatformListed(p);
    }
    AllPlatformsInOrder();
    IconsKeepOrder(r, AllPlatforms);
  }

  /** The card body for a loaded row. */
  datatype CardView = CardView(
    heading: string, subheading: string, photo: Option<string>, contacts: seq<Link>,
    qrCode: Option<string>, cardUrl: string, bio: Option<string>, logo: Option<string>,
    icons: seq<SocialIcon>)

  function TruthyOrNone(v: Option<string>): (w: Option<string>)
    ensures w.Some? <==> Truthy(v)
    ensures w.Some? ==> w == v
  {
    if Truthy(v) then v else None
  }

  function CardViewOf(r: Profile, cardUrl: string, qrCodeUrl: string): (v: CardView)
    ensures v.heading == r.name + " " + r.surname && v.subheading == r.title + " | " + r.company
    ensures v.photo == TruthyOrNone(r.profilePhotoUrl) && v.logo == TruthyOrNone(r.companyLogoUrl)
    ensures v.qrCode == (if qrCodeUrl != "" then Some(qrCodeUrl) else None) && v.cardUrl == cardUrl
    ensures v.contacts == ContactLinks(r) && v.bio == ShownBio(r) && v.icons == SocialIconsOf(r)
  {
    CardView(r.name + " " + r.surname, r.title + " | " + r.company, TruthyOrNone(r.profilePhotoUrl),
             ContactLinks(r), if qrCodeUrl != "" then Some(qrCodeUrl) else None, cardUrl,
             ShownBio(r), TruthyOrNone(r.companyLogoUrl), SocialIconsOf(r))
  }

  datatype Screen = Spinner | ErrorScreen(message: string) | NotFoundScreen | CardScreen(card: CardView, shareDialogOpen: bool)

  // ---------------------------------------------------------------------------
  // The page

  class DigitalCardPage {
    var qrCodeUrl: string
    var cardUrl: string
    var showShareModal: bool
    var userData: Option<Profile>
    var loading: bool
    var error: Option<string>

    constructor ()
      ensures qrCodeUrl == "" && cardUrl == "" && !showShareModal
      ensures userData == None && loading && error == None
    {
      qrCodeUrl, cardUrl, showShareModal := "", "", false;
      userData, loading, error := None, true, None;
    }

    /**
     * The screen the page renders: the spinner while loading, then the error screen for a
     * non-empty error, then "not found" without data, and only then the card.
     */
    function View(): (s: Screen)
      reads this
      ensures s.Spinner? <==> loading
      ensures s.ErrorScreen? <==> !loading && Truthy(error)
      ensures s.ErrorScreen? ==> s.message == error.value
      ensures s.NotFoundScreen? <==> !loading && !Truthy(error) && userData.None?
      ensures s.CardScreen? <==> !loading && !Truthy(error) && userData.Some?
      ensures s.CardScreen? ==> s.card == CardViewOf(userData.value, cardUrl, qrCodeUrl)
      ensures s.CardScreen? ==> s.shareDialogOpen == showShareModal
    {
      if loading then Spinner
      else if Truthy(error) then ErrorScreen(error.value)
      else if userData.None? then NotFoundScreen
      else CardScreen(CardViewOf(userData.value, cardUrl, qrCodeUrl), showShareModal)
    }

    /**
     * `fetchUserProfile`, run once on mount. `auth` is what the identity provider reports,
     * `rows` the profile table and `lookupFault` an error the row query reports besides the
     * table's own "no rows" case. Every path ends with `loading` false; only a found row
     * sets the data and the card URL. An authentication error also signs the user out
     * (`signOutThrows`: that call rejects, which the handler's `catch` reports as unexpected),
     * and both an authentication error and a missing user schedule a redirect to the sign-in
     * page, unless the sign-out rejected.
     */
    method FetchUserProfile(origin: string, auth: AuthReply, signOutThrows: bool, rows: Store,
                            lookupFault: Option<StoreError>)
      returns (redirect: Option<string>, signedOut: bool)
      modifies this`loading, this`error, this`userData, this`cardUrl
      ensures !loading
      ensures redirect.Some? <==> auth == NoUser || (auth == AuthError && !signOutThrows)
      ensures redirect.Some? ==> redirect.value == SignInPath
      ensures signedOut <==> auth == AuthError
      ensures auth == AuthError ==>
        && error == Some(if signOutThrows then UnexpectedErrorMsg else SessionExpiredMsg)
        && userData == old(userData) && cardUrl == old(cardUrl)
      ensures auth == NoUser ==>
        error == Some(SignInFirstMsg) && userData == old(userData) && cardUrl == old(cardUrl)
      ensures auth == AuthThrew ==>
        error == Some(UnexpectedErrorMsg) && userData == old(userData) && cardUrl == old(cardUrl)
      ensures auth.SignedIn? && (lookupFault.Some? || auth.id !in rows) ==>
        error == Some(ProfileLoadFailedMsg) && userData == old(userData) && cardUrl == old(cardUrl)
      ensures auth.SignedIn? && lookupFault.None? && auth.id in rows ==>
        userData == Some(rows[auth.id]) && cardUrl == CardUrl(origin, auth.id) && error == old(error)
      ensures old(error) == None && old(userData) == None ==>
        && !View().Spinner? && !View().NotFoundScreen?
        && (View().CardScreen? <==> auth.SignedIn? && lookupFault.None? && auth.id in rows)
    {
      redirect, signedOut := None, false;
      if auth == AuthThrew {
        error := Some(UnexpectedErrorMsg);
        loading := false;
        return;
      }
      if auth == AuthError {
        error := Some(SessionExpiredMsg);
        signedOut := true;
        if signOutThrows {
          // The rejected `signOut` lands in the handler's `catch`.
          error := Some(UnexpectedErrorMsg);
          loading := false;
          return;
        }
        redirect := Some(SignInPath);
        loading := false;
        return;
      }
      if auth == NoUser {
        error := Some(SignInFirstMsg);
        redirect := Some(SignInPath);
        loading := false;
        return;
      }
      var id := auth.id;
      // `.select("*").eq("user_id", id).single()`
      var data: Option<Profile>;
      var profileError: Option<StoreError>;
      if lookupFault.Some? {
        data, profileError := None, lookupFault;
      } else if id in rows {
        data, profileError := Some(rows[id]), None;
      } else {
        data, profileError := None, Some(StoreError(NoRowsCode, "no rows"));
      }

      if profileError.Some? {
        error := Some(ProfileLoadFailedMsg);
      } else if data.Some? {
        userData := data;
        cardUrl := CardUrl(origin, id);
      }
      loading := false;
    }

    /** The QR library's promise resolving with the encoded image of the card URL. */
    method QrCodeReady(dataUrl: string)
      modifies this`qrCodeUrl
      ensures qrCodeUrl == dataUrl
    {
      qrCodeUrl := dataUrl;
    }

    /** `handleShare` */
    method OpenShareModal()
      modifies this`showShareModal
      ensures showShareModal
    {
      showShareModal := true;
    }

    method CloseShareModal()
      modifies this`showShareModal
      ensures !showShareModal
    {
      showShareModal := false;
    }
  }

  // ---------------------------------------------------------------------------
  // The share dialog

  const EnterEmailMsg: string := "請輸入電子郵件地址"
  const EnterValidEmailMsg: string := "請輸入有效的電子郵件地址"
  const NotSignedInMsg: string := "用戶未登入"
  const CardSentMsg: string := "名片已成功發送！"
  const SendFailedPrefix: string := "發送失敗："
  const SendRetryMsg: string := "發送失敗，請稍後再試"

  /** The sender's display name: `name surname` when the profile query returned data, else `Someone`. */
  function SenderName(data: Option<Profile>): (n: string)
    ensures n != ""
    ensures data.Some? ==> n == data.value.name + " " + data.value.surname
    ensures data.None? ==> n == "Someone"
  {
    if data.Some? then data.value.name + " " + data.value.surname else "Someone"
  }

  /** The dialog message for the endpoint's JSON response. */
  function ResultMessage(r: SendCard.Response): string {
    if r.success then CardSentMsg else SendFailedPrefix + r.message
  }

  class ShareModal {
    const cardUrl: string
    var email: string
    var loading: bool
    var message: string

    constructor (cardUrl: string)
      ensures this.cardUrl == cardUrl && email == "" && !loading && message == ""
    {
      this.cardUrl := cardUrl;
      email, loading, message := "", false, "";
    }

    method EnterEmail(value: string)
      modifies this`email
      ensures email == value
    {
      email := value;
    }

    /**
     * `handleSend`. An empty or malformed address is refused before anything is sent and
     * without touching `loading`. `user` is what `getUser` gives; without a user, or when that
     * call throws, nothing is posted. Otherwise the body posted to the endpoint is returned, and
     * `reply` is the endpoint's JSON answer to it (`None` when the request or its decoding
     * fails); it decides the message, and `loading` ends false. `lookupFault` is an error of
     * the sender-name query, which the dialog ignores. Only a successful reply schedules
     * closing the dialog.
     */
    method HandleSend(user: AuthReply, rows: Store, lookupFault: bool, reply: Option<SendCard.Response>)
      returns (posted: Option<SendCard.Body>, closeScheduled: bool)
      modifies this`loading, this`message
      ensures email == "" ==> message == EnterEmailMsg && posted == None && loading == old(loading)
      ensures email != "" && !IsEmailShaped(email) ==>
        message == EnterValidEmailMsg && posted == None && loading == old(loading)
      ensures IsEmailShaped(email) ==> !loading
      ensures IsEmailShaped(email) && (user == AuthError || user == NoUser) ==>
        message == NotSignedInMsg && posted == None
      ensures IsEmailShaped(email) && user == AuthThrew ==> message == SendRetryMsg && posted == None
      ensures IsEmailShaped(email) && user.SignedIn? ==>
        var data := if !lookupFault && user.id in rows then Some(rows[user.id]) else None;
        && posted == Some(SendCard.Body(Some(email), Some(SenderName(data)), Some(cardUrl)))
        && message == if reply.None? then SendRetryMsg else ResultMessage(reply.value)
      ensures closeScheduled <==> posted.Some? && reply.Some? && reply.value.success
      ensures posted.None? ==> !IsSuccessText(message)
    {
      ClientMessagesAreRed();
      if email == "" {
        message := EnterEmailMsg;
        return None, false;
      }
      if !IsEmailShaped(email) {
        message := EnterValidEmailMsg;
        return None, false;
      }
      loading := true;
      message := "";

      if user == AuthThrew {
        // A throwing `getUser` lands in the `catch` before anything is posted.
        message := SendRetryMsg;
        loading := false;
        return None, false;
      }
      if !user.SignedIn? {
        // `getUser` reports no user, with or without an error.
        message := NotSignedInMsg;
        loading := false;
        return None, false;
      }
      // `.select("name, surname").eq("user_id", id).single()`: no data on any error.
      var data := if !lookupFault && user.id in rows then Some(rows[user.id]) else None;
      var senderName := SenderName(data);
      posted := Some(SendCard.Body(Some(email), Some(senderName), Some(cardUrl)));
      if reply.None? {
        message := SendRetryMsg;
        closeScheduled := false;
      } else {
        message := ResultMessage(reply.value);
        closeScheduled := reply.value.success;
      }
      loading := false;
    }
  }

  /** The dialog's colour rule: green iff the message mentions success. */
  predicate IsSuccessText(m: string) {
    Contains(m, "成功")
  }

  /** The messages the dialog produces by itself are all shown in red. */
  lemma ClientMessagesAreRed()
    ensures !IsSuccessText(EnterEmailMsg) && !IsSuccessText(EnterValidEmailMsg)
    ensures !IsSuccessText(NotSignedInMsg) && !IsSuccessText(SendRetryMsg)
  {
    FirstCharAbsent(EnterEmailMsg, "成功");
    FirstCharAbsent(EnterValidEmailMsg, "成功");
    FirstCharAbsent(NotSignedInMsg, "成功");
    FirstCharAbsent(SendRetryMsg, "成功");
  }

  /**
   * For every reply the endpoint can give, whatever its template, the dialog's message is green
   * exactly when the endpoint reports success; a failed request is always red.
   */
  lemma ResultColour(t: SendCard.HtmlTemplate, body: Option<SendCard.Body>, delivery: SendCard.Delivery)
    ensures var r := SendCard.Respond(t, body, delivery).response;
      IsSuccessText(ResultMessage(r)) <==> r.success
    ensures !IsSuccessText(SendRetryMsg)
  {
    SendCard.FailureMessages(t, body, delivery);
    ResponseColour(SendCard.Respond(t, body, delivery).response);
    ClientMessagesAreRed();
  }

  lemma ResponseColour(r: SendCard.Response)
    requires !r.success ==> SendCard.IsFailureMessage(r.message)
    ensures IsSuccessText(ResultMessage(r)) <==> r.success
  {
    if r.success {
      ContainsAt(CardSentMsg, "成功", 3);
    } else {
      FailureMessageIsRed(r.message);
    }
  }

  /** Prefixed with the dialog's failure text, no failure message of the endpoint reads as success. */
  lemma FailureMessageIsRed(m: string)
    requires SendCard.IsFailureMessage(m)
    ensures !IsSuccessText(SendFailedPrefix + m)
  {
    FirstCharAbsent(SendFailedPrefix + m, "成功");
  }

  /**
   * What the dialog lets through, the endpoint accepts: for a non-empty card URL, a body the
   * dialog posts is never refused with 400, and the message reaches the provider.
   */
  lemma DialogMeetsEndpointChecks(t: SendCard.HtmlTemplate, email: string, data: Option<Profile>,
                                  cardUrl: string, delivery: SendCard.Delivery)
    requires IsEmailShaped(email) && cardUrl != ""
    ensures var h := SendCard.Respond(t, Some(SendCard.Body(Some(email), Some(SenderName(data)), Some(cardUrl))), delivery);
      h.sent.Some? && h.response.status != 400
  {
    assert email != "" by {
      assert 0 < IndexOf(email, '@');
    }
  }
}
