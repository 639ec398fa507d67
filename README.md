# Digital business card: the form, validation and rendering logic

This project models the deterministic core of a small digital-business-card web application.

- **Profile form** (`/profile-setup`). It keeps a form record. URL-like fields get an `https://` prefix when they have no scheme. A chosen list of social platforms is selected and deselected, and deselecting clears that platform's URL. On submit, the form becomes a profile row, with an empty social URL stored as null. The row either updates the user's existing row or is inserted as a new one.
- **Send-card endpoint** (`POST /api/send-card`). It checks the three required fields in order, then tests the recipient against `/^[^\s@]+@[^\s@]+\.[^\s@]+$/`. It builds the subject and the HTML body, hands the message to the e-mail provider, and maps the outcome to a 400, 500 or 200 JSON response.
- **Card page** (`/digital-card`). It loads the signed-in user's row and builds the card URL `origin/card/userId`. It renders, in order of precedence, the spinner, the error screen, "not found", or the card. The card shows the contact links, the bio, the logo and the social icons in a fixed order. The share dialog checks the address on the client side, derives the sender name and posts to the endpoint.
- **Password reset** (`/auth/reset-password`). The page checks the recovery session. It then checks that the two passwords match, before it checks the length. A substring rule colours the message line.

The identity provider, the database and the e-mail provider are outside the model. Their answers are parameters of the operations:

- `AuthReply` says what signing in reports.
- Fault options stand for errors that a query reports.
- The `Store` map (`map<UserId, Profile>`) is the profile table.
- `Delivery` is the provider's result.

The endpoint is modelled as `SendCard.Respond`, generic over the fixed parts of the HTML template. `SendCard.Post` applies it to the card e-mail's own template, `SendCard.CardTemplate`.

The task of each module:

- `Wrappers` gives `Option`.
- `Text` gives string predicates and the UTF-16 length that JavaScript's `.length` reports.
- `Profiles` gives the stored row and the eight platforms.
- `EmailShape` gives the e-mail pattern and a direct test proved equal to it.
- `ProfileSetup`, `SendCard`, `DigitalCard` and `ResetPassword` model the four pages.
- `CardRoundTrip` relates the row that the form saves to the card that the card page renders.

The pure parts of the pages are functions on datatypes. These are the form transforms, the endpoint, the card content and the password checks. Their written-out lists have no loops. The parts that update page state step by step are methods on classes with the page's state fields. These are `fetchUserProfile`, the share dialog's `handleSend`, `checkSession` and `handleResetPassword`. The setup page keeps its state in the `SetupState` datatype, which its handlers return updated. Its `handleSubmit` is a module-level method, `ProfileSetup.HandleSubmit`, that changes the profile table, a `ProfileStore` object.

Two behaviours of the code are worth knowing:

- On the card page, a user with no profile row gets the error screen "無法載入用戶資料", not "not found". The row query's `.single()` reports "no rows" as an error, and the handler checks errors first. The "not found" screen is reachable only when `userData` is still empty while no error is set (`DigitalCard.DigitalCardPage.FetchUserProfile`).
- On the reset page, the too-short refusal "密碼至少需要 6 個字符" is coloured as a success message. The reason is that it contains none of the three marker words (`ResetPassword.TooShortMessageIsGreen`).

## Model

| member | source | states |
|---|---|---|
| Text.Utf16Length | app/profile-setup/page.tsx:114 | The `.length` of a string counts UTF-16 code units. It lies between the number of code points and twice that, and equals the number of code points when all of them are in the Basic Multilingual Plane. |
| Profiles.Rank | app/digital-card/page.tsx:171-212 | Every platform has one position in the fixed `SocialIcons` order, and the platform list holds it at that position. |
| EmailShape.ShapeIsPattern | app/api/send-card/route.ts:17 | The direct shape test accepts exactly the strings the anchored regular expression matches. Such a string has no JavaScript whitespace, one `@` after a non-empty local part, and a `.` in the domain that is neither its first nor its last character. |
| ProfileSetup.InitialState | app/profile-setup/page.tsx:56-81 | Every text field is empty, the photo, logo and previews are null, nothing is selected and the bio count is 0. The selection invariant and the URL invariant hold from the start. |
| ProfileSetup.Put | app/profile-setup/page.tsx:112 | The spread update sets the named field to the value. It leaves every other field, the images and the selection unchanged. |
| ProfileSetup.NormalizeValue | app/profile-setup/page.tsx:103-110 | Two prefix steps run in sequence. Together they prefix `https://` exactly once, and only for a URL field name with a non-empty value that starts with neither `http://` nor `https://`. Any other value is kept. A non-empty result for a URL field always has a scheme. |
| ProfileSetup.NormalizeIdempotent | app/profile-setup/page.tsx:104-110 | Normalising an already normalised value changes nothing. |
| ProfileSetup.UrlFieldNames | app/profile-setup/page.tsx:104-108 | Among the form's field names, `website` and the eight `<key>Url` names are exactly the ones the prefix rule applies to. |
| ProfileSetup.HandleInputChange | app/profile-setup/page.tsx:102-116 | Only the edited field changes. It receives the prefixed value for the website and platform URLs and the raw value otherwise. `bioLength` becomes the UTF-16 length of the new bio, and only for the bio. |
| ProfileSetup.HandleFileUpload | app/profile-setup/page.tsx:118-130 | The encoded image goes into the chosen image field and its preview. Every text field, the selection and the other image stay unchanged. |
| ProfileSetup.Without | app/profile-setup/page.tsx:136 | The filter removes every occurrence of the platform and keeps every other platform exactly as often as it occurred. It is the identity when the platform is absent. |
| ProfileSetup.WithoutConcat | app/profile-setup/page.tsx:136 | Filtering a concatenation filters each part, so the platforms that stay keep their relative order, which is the order their URL inputs are rendered in. |
| ProfileSetup.WithoutKeepsNoDuplicates | app/profile-setup/page.tsx:136 | Filtering a list without repeats gives a list without repeats. |
| ProfileSetup.ToggleSocialMedia | app/profile-setup/page.tsx:132-146 | For a selected platform, the toggle removes it and clears its URL. For an unselected one, it appends the platform at the end and keeps its URL. Membership flips, and every other field and both images are unchanged. |
| ProfileSetup.ToggleKeepsSelectionInvariant | app/profile-setup/page.tsx:132-146 | A toggle keeps both parts of the invariant: the selection has no repeats, and every unselected platform has an empty URL. |
| ProfileSetup.EditKeepsSelectionInvariant | app/profile-setup/page.tsx:102-116 | An edit keeps the invariant when it touches only a platform URL whose input is rendered, that is, a selected platform. |
| ProfileSetup.EditKeepsUrlsNormalized | app/profile-setup/page.tsx:102-116 | After any edit, every non-empty URL field still carries a scheme. |
| ProfileSetup.ToggleKeepsUrlsNormalized | app/profile-setup/page.tsx:132-146 | A toggle keeps every non-empty URL field carrying a scheme. |
| ProfileSetup.WithoutAppended | app/profile-setup/page.tsx:136-137 | Removing a platform that was just appended gives back the original list. |
| ProfileSetup.ToggleTwiceRestores | app/profile-setup/page.tsx:132-146 | Selecting and then deselecting a platform restores the form exactly, when the invariant holds. |
| ProfileSetup.ToRow | app/profile-setup/page.tsx:209-229 | The row carries the text fields and both images unchanged. Each social URL is null when empty and the typed URL otherwise. |
| ProfileSetup.DeselectedSubmitsNull | app/profile-setup/page.tsx:222-229 | Under the invariant, a deselected platform always submits null. |
| ProfileSetup.SubmittedUrlsHaveScheme | app/profile-setup/page.tsx:222-229 | A non-null submitted social URL is non-empty and has a scheme. |
| ProfileSetup.HandleSubmit | app/profile-setup/page.tsx:148-274 | With no user id, nothing is written. A lookup error other than `PGRST116` writes nothing. Otherwise the user's row becomes the form's row. It is an update when a row was found and an insert otherwise, unless the write reports an error. No other user's row changes in any case. Each outcome shows its own alert, with the store's message after a lookup or write error. Only the missing user id redirects to "/", and only a successful save redirects to "/digital-card". |
| SendCard.Fill | app/api/send-card/route.ts:128-170 | The template has the sender name after the header, again in the paragraph, and the card URL in both links. Each value sits verbatim at a known offset. |
| SendCard.EmailHtml | app/api/send-card/route.ts:23-176 | The HTML body contains the sender name and the card URL verbatim, unescaped. |
| SendCard.FillContains | app/api/send-card/route.ts:128-170 | Whatever the fixed markup, the filled body contains the sender name and the card URL. |
| SendCard.Compose | app/api/send-card/route.ts:179-184 | The sender is fixed and the recipient list is exactly the one address. The subject is the name followed by " shared their digital business card with you", and the body is the template filled with the name and the URL. |
| SendCard.Respond | app/api/send-card/route.ts:7-201 | A body that does not parse, or parses to `null`, gives 500. A missing or empty field gives 400 "缺少必要參數" before the shape is looked at. The message is sent exactly when all fields are present and the shape test passes. A shape failure gives 400 "無效的郵件地址". A provider error gives 500 "郵件發送失敗". A thrown send gives 500 "發送失敗，請稍後再試". Only an accepted send gives 200 with the provider's id. |
| SendCard.SentMessageContents | app/api/send-card/route.ts:179-184 | A message that is sent goes to exactly the requested recipient, has the fixed subject, and its body contains the sender name and the card URL verbatim. |
| SendCard.SentOnlyToPatternAddresses | app/api/send-card/route.ts:17-20 | Every message handed to the provider goes to a single address that the regular expression matches. |
| SendCard.Post | app/api/send-card/route.ts:7-201 | The endpoint with the card e-mail's template sends only a request whose three fields are present. The body of a sent message is the card e-mail for the sender name and the card URL, and contains both. |
| SendCard.ResponseIndependentOfTemplate | app/api/send-card/route.ts:7-201 | The JSON response does not depend on the HTML template, which shapes only the message body. |
| SendCard.ValidationIndependentOfDelivery | app/api/send-card/route.ts:12-20 | Whether a request is refused with 400 does not depend on the provider, and a refused request gives the same answer for every provider outcome. |
| SendCard.FailureMessages | app/api/send-card/route.ts:13-199 | Every unsuccessful response carries one of the four fixed failure messages. |
| DigitalCard.CardUrl | app/digital-card/page.tsx:82 | The card URL starts with `origin + "/card/"` and ends with exactly the user id. |
| DigitalCard.CardUrlRoundTrip | app/digital-card/page.tsx:82 | Reading the user id back from a card URL under the same origin gives the id it was built from. |
| DigitalCard.CardUrlInjective | app/digital-card/page.tsx:82 | Two users never share a card URL under one origin. |
| DigitalCard.ContactLinks | app/digital-card/page.tsx:253-283 | The e-mail, mobile and website links each appear exactly when their field is non-empty, in that order. They link with `mailto:`, `tel:` and the plain URL, and show the value. |
| DigitalCard.ShownBio | app/digital-card/page.tsx:321 | The bio section appears exactly when the bio is non-empty and not `n/a`, and it shows the bio. |
| DigitalCard.IconsFor | app/digital-card/page.tsx:347-365 | Every icon comes from the walked list with a non-null, non-empty URL, links to it and has the title "Visit <label> profile". Every such platform has its icon. |
| DigitalCard.IconsKeepOrder | app/digital-card/page.tsx:347 | Walking the platforms in order gives the icons in that order. |
| DigitalCard.AllPlatformsInOrder | app/digital-card/page.tsx:171-212 | The platform list walks the `SocialIcons` keys in their declared order. |
| DigitalCard.SocialIconsSpec | app/digital-card/page.tsx:345-366 | The card's icons are exactly the platforms with a usable URL, each linking to it, in the fixed platform order. |
| DigitalCard.TruthyOrNone | app/digital-card/page.tsx:226 | The photo, and likewise the logo, is shown only when its URL is non-null and non-empty. |
| DigitalCard.CardViewOf | app/digital-card/page.tsx:214-373 | The card shows "name surname", "title \| company", the truthy photo and logo, the QR image only once it exists, the card URL, the contact links, the bio rule and the icon list. |
| DigitalCard.DigitalCardPage.constructor | app/digital-card/page.tsx:35-40 | The page starts loading, with no data, no error, empty URLs and the dialog closed. |
| DigitalCard.DigitalCardPage.View | app/digital-card/page.tsx:129-168 | The spinner shows while loading. Next comes the error screen for a non-empty error, then "not found" without data, and only then the card with the dialog flag. |
| DigitalCard.DigitalCardPage.FetchUserProfile | app/digital-card/page.tsx:43-100 | `loading` ends false on every path. An authentication error, a missing user and an exception set their own messages. An authentication error also signs out, and both it and a missing user schedule the redirect. A sign-out that rejects lands in the handler's `catch`: the message becomes "發生未預期的錯誤" and no redirect is scheduled. A query error, including "no rows", gives "無法載入用戶資料". Only a found row sets the data and the card URL. From the initial state, the page ends on the card exactly when the row was found, and otherwise on the error screen. |
| DigitalCard.DigitalCardPage.QrCodeReady | app/digital-card/page.tsx:90-91 | The resolved QR image becomes the page's QR code. |
| DigitalCard.DigitalCardPage.OpenShareModal | app/digital-card/page.tsx:105-107 | Sharing opens the dialog. |
| DigitalCard.DigitalCardPage.CloseShareModal | app/digital-card/page.tsx:371 | Closing the dialog's `onClose` closes it. |
| DigitalCard.SenderName | app/digital-card/page.tsx:412 | The name is "name surname" when the profile query returned data and "Someone" otherwise. It is never empty. |
| DigitalCard.ShareModal.constructor | app/digital-card/page.tsx:378-380 | The dialog starts with an empty address, not loading and no message. |
| DigitalCard.ShareModal.EnterEmail | app/digital-card/page.tsx:457 | Typing sets the address. |
| DigitalCard.ShareModal.HandleSend | app/digital-card/page.tsx:382-442 | With an empty address or one that fails the same regular expression as the endpoint, the dialog shows its own message, sends nothing and does not touch `loading`. Without a user, nothing is sent and the message is "用戶未登入". When `getUser` throws, nothing is sent and the message is "發送失敗，請稍後再試". Otherwise it posts `{email, SenderName, cardUrl}`, and the endpoint's reply or a failed request decides the message. `loading` ends false. Only a successful reply schedules the close. The dialog's own refusals are never green. |
| DigitalCard.ClientMessagesAreRed | app/digital-card/page.tsx:463 | The dialog's own messages never mention success, so they are red. |
| DigitalCard.ResultColour | app/digital-card/page.tsx:428-438 | For every reply the endpoint can give, the dialog's message mentions success exactly when the reply reports success. The message after a failed request never does. |
| DigitalCard.ResponseColour | app/digital-card/page.tsx:463 | A response with one of the fixed failure messages is red, and a successful one is green. |
| DigitalCard.FailureMessageIsRed | app/digital-card/page.tsx:434 | "發送失敗：" followed by any of the endpoint's failure messages never mentions success. |
| DigitalCard.DialogMeetsEndpointChecks | app/digital-card/page.tsx:383-424 | A request the dialog lets through with a non-empty card URL passes both of the endpoint's checks. It is never refused with 400, and the message reaches the provider. |
| ResetPassword.PasswordProblem | app/auth/reset-password/page.tsx:36-44 | A mismatch is reported before the length. A password of fewer than 6 UTF-16 units is refused. There is no problem exactly when the two match and the length is at least 6. |
| ResetPassword.ResetPasswordPage.constructor | app/auth/reset-password/page.tsx:12-16 | The page starts with empty fields and no message, not loading and without a valid session. |
| ResetPassword.ResetPasswordPage.CheckSession | app/auth/reset-password/page.tsx:18-31 | A session marks the page valid. Without one, the page stays invalid and shows "無效的重設連結或連結已過期". |
| ResetPassword.ResetPasswordPage.SetPassword | app/auth/reset-password/page.tsx:97 | Typing sets the new password. |
| ResetPassword.ResetPasswordPage.SetConfirmPassword | app/auth/reset-password/page.tsx:110 | Typing sets the confirmation. |
| ResetPassword.ResetPasswordPage.HandleResetPassword | app/auth/reset-password/page.tsx:33-63 | The provider is called, with the password, exactly when both checks pass. Otherwise the check's message is shown and `loading` is untouched. A provider error gives "密碼重設失敗：" plus its message. Success gives the success message and the redirect to "/". `loading` ends false. |
| ResetPassword.ResetPasswordPage.View | app/auth/reset-password/page.tsx:65-147 | Without a valid session, only the message screen appears and the form is never rendered. With one, the form appears, with a message line exactly when the message is non-empty, coloured by the substring rule, and a submit button disabled while loading and labelled "處理中..." then, "重設密碼" otherwise. |
| ResetPassword.ErrorMessagesAreRed | app/auth/reset-password/page.tsx:119 | The invalid-link, mismatch and provider-failure messages are coloured as errors. |
| ResetPassword.SuccessMessageIsGreen | app/auth/reset-password/page.tsx:119 | The success message is not coloured as an error. |
| ResetPassword.TooShortMessageIsGreen | app/auth/reset-password/page.tsx:41-44 | The too-short refusal is not coloured as an error. |
| ResetPassword.SubmissionNoticeColour | app/auth/reset-password/page.tsx:36-63 | Of all the messages a submission can leave, exactly the success and too-short messages are not red. |
| CardRoundTrip.SavedIconsAreSelectedPlatforms | app/digital-card/page.tsx:347-365 | Take a form whose invariants hold. The card of its saved row shows an icon for exactly the selected platforms with a typed URL, in the fixed order, each linking to that URL with a scheme. |
| CardRoundTrip.SavedCardShowsForm | app/digital-card/page.tsx:245-326 | The card of a saved row shows the form's names, title and company. It shows a contact link exactly for each non-empty contact field, with the form's value. The bio appears unless it is empty or `n/a`. |

## Left out

- Supabase. Sign-in, sessions, sign-out and the row queries are answers passed in as parameters. These are `AuthReply`, the fault options, the session flag and the update error. The table is a `map` with one row per user. The check-then-write race of `handleSubmit` is not modelled, and neither are duplicate rows.
- Resend. Delivery is the `Delivery` value. What the provider does with the message is outside the model.
- The QR library, `FileReader` and the browser. The encoded images are opaque strings supplied to `QrCodeReady` and `HandleFileUpload`. The clipboard copy and its `execCommand` fallback, `window.open` and the redirects' two-second timers are browser effects. The redirect targets are returned or stated, and the timers are not modelled.
- The setup page's mount effect, which reads the user id and otherwise redirects. `ProfileSetup.HandleSubmit` takes the user id it would have stored.
- Browser form validation. The `required` and `minLength={6}` attributes, and the bio's `maxLength={150}`, are enforced by the browser, not by the code. The model lets any input reach the handlers.
- `ProfileSetup.HandleInputChange`: the model takes the field from the form's own fields (`Field`), not from an arbitrary string key.
- `SendCard.Respond`: the JSON members are strings or absent. A non-string value, such as a number for `recipientEmail`, is not modelled.
- `SendCard.EmailHtml`: the CSS rules of the e-mail's style block and the template's whitespace are not reproduced, so the body is stated by what it contains.
- `EmailShape.IsEmailShaped`: any character outside the Basic Multilingual Plane is one character here. The regular expression, which has no `u` flag, sees such a character as two code units, and neither of them is whitespace or `@`, so the verdict is the same.
- `DigitalCard.ShareModal.HandleSend`: the endpoint runs on the server, so the dialog takes its JSON reply as an input. `DigitalCard.DialogMeetsEndpointChecks` and `DigitalCard.ResultColour` state what that reply is for a body the dialog posts. A throwing `getUser` is its own case of the `user` input, and in it nothing is posted.
- JSX layout, CSS classes, images' `onError` handlers and the button labels, apart from the submit button of the reset page.
- The log output from `console.log` and `console.error`.
