/**
 * The profile set-up page: the form record, its edit and toggle handlers (pure
 * record transforms in the source), and the submit handler that turns the form
 * into a row and upserts it into the profile table.
 */
module ProfileSetup {
  import opened Wrappers
  import opened Text
  import opened Profiles

  /** The page's `formData` state. */
  datatype FormData = FormData(
    name: string, surname: string, title: string, company: string,
    email: string, mobile: string, website: string, bio: string,
    profilePhoto: Option<string>, companyLogo: Option<string>,
    lineUrl: string, whatsappUrl: string, linkedinUrl: string, instagramUrl: string,
    threadsUrl: string, xUrl: string, wechatUrl: string, facebookUrl: string,
    selectedSocialMedia: seq<Platform>)

  /** The text fields `handleInputChange` is called with. */
  datatype Field = Name | Surname | Title | Company | Email | Mobile | Website | Bio | PlatformUrl(platform: Platform)

  /** The key string of a field, as the page passes it to `handleInputChange`. */
  function FieldName(f: Field): string {
    match f
    case Name => "name"
    case Surname => "surname"
    case Title => "title"
    case Company => "company"
    case Email => "email"
    case Mobile => "mobile"
    case Website => "website"
    case Bio => "bio"
    case PlatformUrl(p) => Key(p) + "Url"
  }

  /** The current value of a text field. */
  function Get(f: FormData, field: Field): string {
    match field
    case Name => f.name
    case Surname => f.surname
    case Title => f.title
    case Company => f.company
    case Email => f.email
    case Mobile => f.mobile
    case Website => f.website
    case Bio => f.bio
    case PlatformUrl(p) =>
      match p
      case Line => f.lineUrl
      case WhatsApp => f.whatsappUrl
      case LinkedIn => f.linkedinUrl
      case Instagram => f.instagramUrl
      case Threads => f.threadsUrl
      case X => f.xUrl
      case WeChat => f.wechatUrl
      case Facebook => f.facebookUrl
  }

  /** `{ ...f, [field]: v }`: the named field becomes `v` and nothing else changes. */
  function Put(f: FormData, field: Field, v: string): (g: FormData)
    ensures Get(g, field) == v
    ensures forall other :: other != field ==> Get(g, other) == Get(f, other)
    ensures g.profilePhoto == f.profilePhoto && g.companyLogo == f.companyLogo
    ensures g.selectedSocialMedia == f.selectedSocialMedia
  {
    match field
    case Name => f.(name := v)
    case Surname => f.(surname := v)
    case Title => f.(title := v)
    case Company => f.(company := v)
    case Email => f.(email := v)
    case Mobile => f.(mobile := v)
    case Website => f.(website := v)
    case Bio => f.(bio := v)
    case PlatformUrl(p) =>
      match p
      case Line => f.(lineUrl := v)
      case WhatsApp => f.(whatsappUrl := v)
      case LinkedIn => f.(linkedinUrl := v)
      case Instagram => f.(instagramUrl := v)
      case Threads => f.(threadsUrl := v)
      case X => f.(xUrl := v)
      case WeChat => f.(wechatUrl := v)
      case Facebook => f.(facebookUrl := v)
  }

  /** The whole page state: the form, the bio counter and the two image previews. */
  datatype SetupState = SetupState(
    form: FormData, bioLength: nat,
    profilePhotoPreview: Option<string>, companyLogoPreview: Option<string>)

  /** The state the page starts in. */
  function InitialState(): (st: SetupState)
    ensures forall field :: Get(st.form, field) == ""
    ensures st.form.profilePhoto == None && st.form.companyLogo == None
    ensures st.form.selectedSocialMedia == [] && st.bioLength == 0
    ensures SelectionInvariant(st.form) && UrlsNormalized(st.form)
  {
    SetupState(
      FormData("", "", "", "", "", "", "", "", None, None, "", "", "", "", "", "", "", "", []),
      0, None, None)
  }

  // ---------------------------------------------------------------------------
  // handleInputChange

  /** The fields the page treats as URLs: `website` and every key ending in `Url`. */
  predicate IsUrlFieldName(name: string) {
    name == "website" || EndsWith(name, "Url")
  }

  predicate HasScheme(v: string) {
    StartsWith(v, "http://") || StartsWith(v, "https://")
  }

  /**
   * The value `handleInputChange` stores: the two prefixing rules of the source, applied
   * one after the other. Together they prefix `https://` exactly once, for a URL field
   * whose non-empty value has no scheme.
   */
  function NormalizeValue(fieldName: string, value: string): (r: string)
    ensures r == if IsUrlFieldName(fieldName) && value != "" && !HasScheme(value)
                 then "https://" + value else value
    ensures IsUrlFieldName(fieldName) && r != "" ==> HasScheme(r)
  {
    var v := if fieldName == "website" && value != "" && !HasScheme(value) then "https://" + value else value;
    PrefixOfConcat("https://", value);
    if EndsWith(fieldName, "Url") && v != "" && !HasScheme(v) then "https://" + v else v
  }

  /** Normalising a value twice gives the same as normalising it once. */
  lemma NormalizeIdempotent(fieldName: string, value: string)
    ensures NormalizeValue(fieldName, NormalizeValue(fieldName, value)) == NormalizeValue(fieldName, value)
  {
  }

  /** The string test on field keys picks out exactly the website and the eight platform URLs. */
  lemma UrlFieldNames(f: Field)
    ensures IsUrlFieldName(FieldName(f)) <==> (f == Website || f.PlatformUrl?)
  {
    match f
    case PlatformUrl(p) =>
      assert (Key(p) + "Url")[|Key(p) + "Url"| - 3..] == "Url";
    case Name => assert "name"[1..] != "Url" by { assert "name"[1..][0] == 'a'; }
    case Surname => assert "surname"[4..] != "Url" by { assert "surname"[4..][0] == 'a'; }
    case Title => assert "title"[2..] != "Url" by { assert "title"[2..][0] == 't'; }
    case Company => assert "company"[4..] != "Url" by { assert "company"[4..][0] == 'a'; }
    case Email => assert "email"[2..] != "Url" by { assert "email"[2..][0] == 'a'; }
    case Mobile => assert "mobile"[3..] != "Url" by { assert "mobile"[3..][0] == 'i'; }
    case Website =>
    case Bio => assert "bio"[0..] != "Url" by { assert "bio"[0..][0] == 'b'; }
  }

  /**
   * `handleInputChange(field, value)`: the field gets the normalised value, no other
   * field changes, and editing `bio` sets the counter to the value's JavaScript length.
   */
  function HandleInputChange(st: SetupState, field: Field, value: string): (st': SetupState)
    ensures Get(st'.form, field) == (if (field == Website || field.PlatformUrl?) && value != "" && !HasScheme(value)
                                     then "https://" + value else value)
    ensures forall other :: other != field ==> Get(st'.form, other) == Get(st.form, other)
    ensures st'.form.profilePhoto == st.form.profilePhoto && st'.form.companyLogo == st.form.companyLogo
    ensures st'.form.selectedSocialMedia == st.form.selectedSocialMedia
    ensures st'.bioLength == if field == Bio then Utf16Length(value) else st.bioLength
    ensures st'.profilePhotoPreview == st.profilePhotoPreview && st'.companyLogoPreview == st.companyLogoPreview
  {
    UrlFieldNames(field);
    var v := NormalizeValue(FieldName(field), value);
    st.(form := Put(st.form, field, v),
        bioLength := if field == Bio then Utf16Length(v) else st.bioLength)
  }

  // ---------------------------------------------------------------------------
  // handleFileUpload (the data-URL encoding itself is the browser's)

  datatype ImageField = ProfilePhoto | CompanyLogo

  /** Stores an already encoded image in the form and in the matching preview. */
  function HandleFileUpload(st: SetupState, which: ImageField, encoded: string): (st': SetupState)
    ensures forall field :: Get(st'.form, field) == Get(st.form, field)
    ensures st'.form.selectedSocialMedia == st.form.selectedSocialMedia && st'.bioLength == st.bioLength
    ensures which == ProfilePhoto ==>
      && st'.form.profilePhoto == st'.profilePhotoPreview == Some(encoded)
      && st'.form.companyLogo == st.form.companyLogo && st'.companyLogoPreview == st.companyLogoPreview
    ensures which == CompanyLogo ==>
      && st'.form.companyLogo == st'.companyLogoPreview == Some(encoded)
      && st'.form.profilePhoto == st.form.profilePhoto && st'.profilePhotoPreview == st.profilePhotoPreview
  {
    match which
    case ProfilePhoto => st.(form := st.form.(profilePhoto := Some(encoded)), profilePhotoPreview := Some(encoded))
    case CompanyLogo => st.(form := st.form.(companyLogo := Some(encoded)), companyLogoPreview := Some(encoded))
  }

  // ---------------------------------------------------------------------------
  // toggleSocialMedia

  /** `s.filter(q => q !== p)` */
  function Without(s: seq<Platform>, p: Platform): (r: seq<Platform>)
    ensures p !in r
    ensures forall q :: q != p ==> (q in r <==> q in s)
    ensures p !in s ==> r == s
    ensures multiset(r) == multiset(s)[p := 0]
  {
    if s == [] then []
    else if s[0] == p then
      assert s == [s[0]] + s[1..];
      Without(s[1..], p)
    else
      assert s == [s[0]] + s[1..];
      [s[0]] + Without(s[1..], p)
  }

  /** The filter works element by element, so the platforms that stay keep their order. */
  lemma {:induction false} WithoutConcat(a: seq<Platform>, b: seq<Platform>, p: Platform)
    ensures Without(a + b, p) == Without(a, p) + Without(b, p)
  {
    if a != [] {
      assert (a + b)[0] == a[0] && (a + b)[1..] == a[1..] + b;
      var c := a + b;
      assert c != [] && c[0] == a[0] && c[1..] == a[1..] + b;
      WithoutConcat(a[1..], b, p);
      if a[0] != p {
        assert Without(c, p) == [a[0]] + (Without(a[1..], p) + Without(b, p));
      }
    } else {
      assert a + b == b;
    }
  }

  predicate NoDuplicates(s: seq<Platform>) {
    forall i, j :: 0 <= i < j < |s| ==> s[i] != s[j]
  }

  lemma {:induction false} WithoutKeepsNoDuplicates(s: seq<Platform>, p: Platform)
    requires NoDuplicates(s)
    ensures NoDuplicates(Without(s, p))
  {
    if s != [] {
      WithoutKeepsNoDuplicates(s[1..], p);
      var t := Without(s[1..], p);
      if s[0] != p {
        assert s[0] !in s[1..];
        assert s[0] !in t;
        assert Without(s, p) == [s[0]] + t;
      }
    }
  }

  /** `toggleSocialMedia(p)`: deselecting drops `p` and clears its URL; selecting appends `p`. */
  function ToggleSocialMedia(f: FormData, p: Platform): (g: FormData)
    ensures p in f.selectedSocialMedia ==>
      g.selectedSocialMedia == Without(f.selectedSocialMedia, p) && Get(g, PlatformUrl(p)) == ""
    ensures p !in f.selectedSocialMedia ==>
      g.selectedSocialMedia == f.selectedSocialMedia + [p] && Get(g, PlatformUrl(p)) == Get(f, PlatformUrl(p))
    ensures p in g.selectedSocialMedia <==> p !in f.selectedSocialMedia
    ensures forall other :: other != PlatformUrl(p) ==> Get(g, other) == Get(f, other)
    ensures g.profilePhoto == f.profilePhoto && g.companyLogo == f.companyLogo
  {
    var isSelected := p in f.selectedSocialMedia;
    var newSelected := if isSelected then Without(f.selectedSocialMedia, p) else f.selectedSocialMedia + [p];
    var g := f.(selectedSocialMedia := newSelected);
    if isSelected then Put(g, PlatformUrl(p), "") else g
  }

  // ---------------------------------------------------------------------------
  // Invariants of the form

  /**
   * The social-media selection is a list without repeats, and a platform that is not
   * selected has an empty URL (its input is not even rendered).
   */
  ghost predicate SelectionInvariant(f: FormData) {
    && NoDuplicates(f.selectedSocialMedia)
    && forall p :: p !in f.selectedSocialMedia ==> Get(f, PlatformUrl(p)) == ""
  }

  /** Every non-empty URL field carries an `http://` or `https://` scheme. */
  ghost predicate UrlsNormalized(f: FormData) {
    forall field :: (field == Website || field.PlatformUrl?) && Get(f, field) != "" ==> HasScheme(Get(f, field))
  }

  lemma ToggleKeepsSelectionInvariant(f: FormData, p: Platform)
    requires SelectionInvariant(f)
    ensures SelectionInvariant(ToggleSocialMedia(f, p))
  {
    var g := ToggleSocialMedia(f, p);
    if p in f.selectedSocialMedia {
      WithoutKeepsNoDuplicates(f.selectedSocialMedia, p);
    } else {
      var s := f.selectedSocialMedia;
      forall i, j | 0 <= i < j < |s + [p]| ensures (s + [p])[i] != (s + [p])[j] {
        if j == |s| { assert s[i] in s; }
      }
    }
  }

  /** Editing a non-URL field, or the URL of a selected platform, keeps the selection invariant. */
  lemma EditKeepsSelectionInvariant(st: SetupState, field: Field, value: string)
    requires SelectionInvariant(st.form)
    requires field.PlatformUrl? ==> field.platform in st.form.selectedSocialMedia
    ensures SelectionInvariant(HandleInputChange(st, field, value).form)
  {
  }

  lemma EditKeepsUrlsNormalized(st: SetupState, field: Field, value: string)
    requires UrlsNormalized(st.form)
    ensures UrlsNormalized(HandleInputChange(st, field, value).form)
  {
    PrefixOfConcat("https://", value);
  }

  lemma ToggleKeepsUrlsNormalized(f: FormData, p: Platform)
    requires UrlsNormalized(f)
    ensures UrlsNormalized(ToggleSocialMedia(f, p))
  {
  }

  lemma {:induction false} WithoutAppended(s: seq<Platform>, p: Platform)
    requires p !in s
    ensures Without(s + [p], p) == s
  {
    if s == [] {
      assert [] + [p] == [p];
    } else {
      assert (s + [p])[1..] == s[1..] + [p];
      WithoutAppended(s[1..], p);
    }
  }

  /** Selecting a platform and deselecting it again restores the form exactly. */
  lemma ToggleTwiceRestores(f: FormData, p: Platform)
    requires SelectionInvariant(f) && p !in f.selectedSocialMedia
    ensures ToggleSocialMedia(ToggleSocialMedia(f, p), p) == f
  {
    WithoutAppended(f.selectedSocialMedia, p);
    var h := ToggleSocialMedia(ToggleSocialMedia(f, p), p);
    assert forall field :: Get(h, field) == Get(f, field);
  }

  // ---------------------------------------------------------------------------
  // handleSubmit

  /** `v || null` for a string. */
  function NullIfEmpty(v: string): Option<string> {
    if v == "" then None else Some(v)
  }

  /** The row `handleSubmit` writes (identical for the update and the insert). */
  function ToRow(f: FormData): (r: Profile)
    ensures r.name == f.name && r.surname == f.surname && r.title == f.title && r.company == f.company
    ensures r.email == f.email && r.mobile == f.mobile && r.website == f.website && r.bio == f.bio
    ensures r.profilePhotoUrl == f.profilePhoto && r.companyLogoUrl == f.companyLogo
    ensures forall p :: SocialUrl(r, p) == if Get(f, PlatformUrl(p)) == "" then None else Some(Get(f, PlatformUrl(p)))
  {
    var profilePhotoUrl := f.profilePhoto;
    var companyLogoUrl := f.companyLogo;
    Profile(f.name, f.surname, f.title, f.company, f.email, f.mobile, f.website, f.bio,
            profilePhotoUrl, companyLogoUrl,
            NullIfEmpty(f.lineUrl), NullIfEmpty(f.whatsappUrl), NullIfEmpty(f.linkedinUrl),
            NullIfEmpty(f.instagramUrl), NullIfEmpty(f.threadsUrl), NullIfEmpty(f.xUrl),
            NullIfEmpty(f.wechatUrl), NullIfEmpty(f.facebookUrl))
  }

  /** Under the selection invariant, a deselected platform is always submitted as null. */
  lemma DeselectedSubmitsNull(f: FormData, p: Platform)
    requires SelectionInvariant(f) && p !in f.selectedSocialMedia
    ensures SocialUrl(ToRow(f), p) == None
  {
  }

  /** A submitted social URL is never empty and, for a normalised form, has a scheme. */
  lemma SubmittedUrlsHaveScheme(f: FormData, p: Platform)
    requires UrlsNormalized(f)
    ensures SocialUrl(ToRow(f), p).Some? ==> Truthy(SocialUrl(ToRow(f), p)) && HasScheme(SocialUrl(ToRow(f), p).value)
  {
  }

  /** The profile table, as far as the form sees it. */
  class ProfileStore {
    var rows: Store

    constructor (initial: Store)
      ensures rows == initial
    {
      rows := initial;
    }
  }

  datatype WriteKind = Updated | Inserted

  datatype SubmitOutcome =
    | NotSignedIn
    | LookupFailed(error: StoreError)
    | SaveFailed(error: StoreError)
    | Saved(kind: WriteKind)

  const NotSignedInAlert: string := "用戶未登入，無法提交資料。"
  const LookupFailedPrefix: string := "檢查現有資料失敗："
  const SaveFailedPrefix: string := "提交資料失敗："
  const SavedAlert: string := "資料已成功提交！"

  /** Where `handleSubmit` sends a visitor who is not signed in. */
  const SignInPath: string := "/"

  /** Where `handleSubmit` goes after a successful save. */
  const CardPagePath: string := "/digital-card"

  /**
   * `handleSubmit`. The existence check and the write are the store's; `lookupFault` is an
   * error the check reports (other than the no-row case, which the store itself decides)
   * and `writeFault` an error the update or insert reports. A missing user id or a lookup
   * error other than "no rows" writes nothing; otherwise the row replaces that user's row,
   * as an update when one was found and an insert otherwise. No other user's row changes.
   * Every outcome shows its alert; only the not-signed-in and saved outcomes navigate.
   */
  method HandleSubmit(store: ProfileStore, userId: Option<UserId>, form: FormData,
                      lookupFault: Option<StoreError>, writeFault: Option<StoreError>)
    returns (outcome: SubmitOutcome, alert: string, redirect: Option<string>)
    modifies store
    ensures !Truthy(userId) ==> outcome == NotSignedIn && store.rows == old(store.rows)
    ensures Truthy(userId) && lookupFault.Some? && lookupFault.value.code != NoRowsCode ==>
      outcome == LookupFailed(lookupFault.value) && store.rows == old(store.rows)
    ensures Truthy(userId) && (lookupFault.None? || lookupFault.value.code == NoRowsCode) ==>
      var kind := if lookupFault.None? && userId.value in old(store.rows) then Updated else Inserted;
      if writeFault.Some?
      then outcome == SaveFailed(writeFault.value) && store.rows == old(store.rows)
      else outcome == Saved(kind) && store.rows == old(store.rows)[userId.value := ToRow(form)]
    ensures forall u :: !(Truthy(userId) && u == userId.value) ==>
      (u in store.rows <==> u in old(store.rows)) && (u in store.rows ==> store.rows[u] == old(store.rows)[u])
    ensures outcome.NotSignedIn? ==> alert == NotSignedInAlert && redirect == Some(SignInPath)
    ensures outcome.LookupFailed? ==> alert == LookupFailedPrefix + outcome.error.message && redirect == None
    ensures outcome.SaveFailed? ==> alert == SaveFailedPrefix + outcome.error.message && redirect == None
    ensures outcome.Saved? ==> alert == SavedAlert && redirect == Some(CardPagePath)
  {
    if !Truthy(userId) {
      return NotSignedIn, NotSignedInAlert, Some(SignInPath);
    }
    var uid := userId.value;

    // The existence check: `.select("id").eq("user_id", uid).single()`.
    var existingProfile: bool;
    var fetchError: Option<StoreError>;
    if lookupFault.Some? {
      existingProfile, fetchError := false, lookupFault;
    } else if uid in store.rows {
      existingProfile, fetchError := true, None;
    } else {
      existingProfile, fetchError := false, Some(StoreError(NoRowsCode, "no rows"));
    }

    if fetchError.Some? && fetchError.value.code != NoRowsCode {
      return LookupFailed(fetchError.value), LookupFailedPrefix + fetchError.value.message, None;
    }

    var row := ToRow(form);
    var kind := if existingProfile then Updated else Inserted;
    if writeFault.Some? {
      outcome, alert, redirect := SaveFailed(writeFault.value), SaveFailedPrefix + writeFault.value.message, None;
    } else {
      store.rows := store.rows[uid := row];
      outcome, alert, redirect := Saved(kind), SavedAlert, Some(CardPagePath);
    }
  }
}
