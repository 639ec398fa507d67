/**
 * The two pages together: the row the setup form saves is the row the card page renders.
 * The card shows exactly the platforms the owner selected and filled in, in the fixed
 * platform order, each linking to the URL typed into the form.
 */
module CardRoundTrip {
  import opened Wrappers
  import opened Profiles
  import opened ProfileSetup
  import opened DigitalCard

  /**
   * For a form the page's handlers keep consistent, the icons of the saved row are the selected
   * platforms with a non-empty URL and nothing else, in the fixed order; each links to the
   * form's URL, which carries a scheme.
   */
  lemma SavedIconsAreSelectedPlatforms(f: FormData)
    requires SelectionInvariant(f) && UrlsNormalized(f)
    ensures var r := ToRow(f);
      var icons := SocialIconsOf(r);
      && (forall p :: p in f.selectedSocialMedia && Get(f, PlatformUrl(p)) != "" ==> IconOf(r, p) in icons)
      && (forall i :: 0 <= i < |icons| ==>
            && icons[i].platform in f.selectedSocialMedia
            && icons[i].href == Get(f, PlatformUrl(icons[i].platform))
            && HasScheme(icons[i].href))
      && IconsInOrder(icons)
  {
    var r := ToRow(f);
    SocialIconsSpec(r);
    var icons := SocialIconsOf(r);
    forall i | 0 <= i < |icons|
      ensures icons[i].platform in f.selectedSocialMedia
      ensures icons[i].href == Get(f, PlatformUrl(icons[i].platform))
      ensures HasScheme(icons[i].href)
    {
      var p := icons[i].platform;
      assert Truthy(SocialUrl(r, p));
      assert Get(f, PlatformUrl(p)) != "";
    }
  }

  /**
   * The rest of the saved card: the heading and subtitle from the form's names, title and
   * company, a contact link for each non-empty contact field, and the bio unless it is empty
   * or the placeholder `n/a`.
   */
  lemma SavedCardShowsForm(f: FormData, cardUrl: string, qrCodeUrl: string)
    ensures var v := CardViewOf(ToRow(f), cardUrl, qrCodeUrl);
      && v.heading == f.name + " " + f.surname
      && v.subheading == f.title + " | " + f.company
      && (v.bio.Some? <==> f.bio != "" && f.bio != "n/a")
      && (forall k :: ContactValue(ToRow(f), k) != "" <==> exists i :: 0 <= i < |v.contacts| && v.contacts[i].kind == k)
      && (forall i :: 0 <= i < |v.contacts| ==> v.contacts[i].text == Get(f, ContactField(v.contacts[i].kind)))
  {
    var r := ToRow(f);
    var links := ContactLinks(r);
    forall k | exists i :: 0 <= i < |links| && links[i].kind == k
      ensures ContactValue(r, k) != ""
    {
      var i :| 0 <= i < |links| && links[i].kind == k;
    }
    forall i | 0 <= i < |links| ensures links[i].text == Get(f, ContactField(links[i].kind)) {
      match links[i].kind
      case MailLink =>
      case PhoneLink =>
      case WebLink =>
    }
  }

  /** The setup form field behind a contact link. */
  function ContactField(k: ContactKind): Field {
    match k
    case MailLink => Email
    case PhoneLink => Mobile
    case WebLink => Website
  }
}
