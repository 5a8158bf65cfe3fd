# A licence shop's checkout, admin dashboard, server and static build, in Dafny

The system is the website of a small software shop. It sells one licence,
for GemCrest. The site has these parts:

- **Strict checkout** (`public/js/checkout.js`). The buyer types a name and
  an email. A one-time password (OTP) is sent to that email and confirmed
  through one "smart" button, which moves through three steps: 0 (nothing
  sent), 1 (OTP sent), 2 (verified). Only a verified buyer may start a
  purchase. A purchase creates an order and opens the Razorpay payment
  widget. A reported payment is then verified with the backend, and the
  page shows the licence code or a support message.
- **Loose checkout** (`js/checkout.js`). The same purchase without the OTP
  step. It wraps the widget in a promise and warns the buyer when the
  licence email could not be sent.
- **Admin dashboard** (`public/js/admin.js`). It lists licences, searches
  them, counts them, creates licences (with a generated
  `JEWELRY-XXXX-XXXX` code), revokes them and unlinks their devices. It is
  guarded by a secret kept in browser storage.
- **Server** (`server.js`). It serves the pages and two scripts. Before
  sending a script it fills the script's placeholders from the environment.
- **Static build** (`scripts/build_static.js`). It plans the pages to
  render, computes each page's relative root path and view data, and fills
  the scripts' placeholders.
- **Eleventy path helper** (`src/_data/eleventyComputed.js`). It computes a
  page's relative way back to the site root.

Each module follows one source file:

| source file | Dafny module |
|---|---|
| `public/js/checkout.js` | `StrictCheckout` |
| `js/checkout.js` | `LooseCheckout` |
| both checkouts | `CheckoutCommon`, `Email` |
| `public/js/admin.js` | `Admin`, `LicenseCodes` |
| `server.js` | `Server` |
| `scripts/build_static.js` | `BuildStatic` |
| `server.js` and `scripts/build_static.js` | `Placeholders` (shared substitution) |
| `src/_data/eleventyComputed.js` | `EleventyPath` |

`JsString`, `JsArray` and `Optional` model the JavaScript built-ins the
source uses (`trim`, `split`, `join`, `replace`, `padStart`,
`toLowerCase`, `includes`, `filter`, `||` defaults), with their own lemmas.

**Pages are classes.** The pages whose handlers update state in place are
classes whose fields the handlers update:

- `StrictCheckout.CheckoutPage`
- `LooseCheckout.CheckoutPage`
- `Admin.Dashboard`
- `CheckoutCommon.Button`

Each page has a `State()` snapshot. Every handler states its whole new state
in terms of the old one and of pure functions. Those functions carry the
properties:

- the purchase gates;
- the OTP step function;
- the payment display;
- `setButtonLoading` as `SetLoadingView`;
- the refetch of the licence list as `AfterList`.

**Outside answers are inputs.** The answers of the network, of the payment
widget, of `confirm()`, of the template engine and of the file system are
parameters of the handlers. So are the random draws behind a licence code.
The requests a page sends and the messages it shows are recorded, in order,
in sequence fields.

## Model

| member | source | states |
|---|---|---|
| Email.ValidEmailCharacterisation | public/js/checkout.js:375-378 | The email pattern accepts a string exactly when it has exactly one `@`, no whitespace, a non-empty part before the `@`, and a dot after the `@` with a character on each side; both directions are proved |
| Email.MatchGivesConditions | public/js/checkout.js:375-378 | A match of the pattern yields the character conditions above |
| Email.ConditionsGiveMatch | js/checkout.js:198-201 | The character conditions yield a match of the same pattern, which the loose checkout uses too |
| Email.IsValidEmail | public/js/checkout.js:375-378 | An accepted email is at least five characters long and holds an `@` and a dot |
| CheckoutCommon.PurchaseRequests | public/js/checkout.js:216-325 | A blocked purchase sends nothing; a purchase that goes on sends at most two requests, the order creation first; payment verification, with the widget's ids and the buyer's name and email, is sent exactly when the order was created and the widget reported a payment, and otherwise the order creation is the only request |
| CheckoutCommon.SetLoadingView | public/js/checkout.js:380-391 | Loading disables the button, saves its text and shows the spinner; unloading enables it and shows the saved text, or 'Buy Now' when none was saved |
| CheckoutCommon.LoadThenUnloadRestores | public/js/checkout.js:380-391 | Loading then unloading gives back the original text (or 'Buy Now' for an empty one), enabled |
| CheckoutCommon.UnloadIdempotent | js/checkout.js:203-214 | Unloading twice, which the loose checkout does on a failed payment, is the same as unloading once |
| CheckoutCommon.LoadTwiceLosesText | public/js/checkout.js:380-391 | Loading an already loading button saves the spinner text, so the original label is lost |
| CheckoutCommon.Button.SetLoading | public/js/checkout.js:380-391 | The button's new view is `SetLoadingView` of its old view |
| CheckoutCommon.Button.SetText | public/js/checkout.js:131 | A direct label write changes only the text |
| CheckoutCommon.Button.Disable | public/js/checkout.js:280 | A direct `disabled = true` changes only the disabled flag |
| StrictCheckout.CapitaliseFrom | public/js/checkout.js:221 | Keeps the length; upper-cases exactly the word characters that start a word, given whether the text before is a word character; all other characters are unchanged |
| StrictCheckout.TitleCase | public/js/checkout.js:221 | The name sent keeps its length; each character starting a word is upper-cased and every other character is kept |
| StrictCheckout.TitleCaseIdempotent | public/js/checkout.js:221 | Title-casing twice is title-casing once |
| StrictCheckout.SmartStep | public/js/checkout.js:93-200 | The step stays in 0..2 and moves by at most one: 0 to 1 exactly on a valid email whose OTP was sent, 1 to 2 exactly on a non-empty OTP that was accepted |
| StrictCheckout.SmartRequest | public/js/checkout.js:101-169 | Step 0 sends the OTP request exactly for a valid email; step 1 sends the verification exactly for a non-empty OTP; step 2 sends nothing |
| StrictCheckout.StepNeedsRequest | public/js/checkout.js:93-200 | The step moves only on a click that sent a request |
| StrictCheckout.Run | public/js/checkout.js:93-99 | A run of clicks never moves the step backwards or past 2 |
| StrictCheckout.VerifiedFromSent | public/js/checkout.js:148-200 | From step 1, reaching verification needs a click whose OTP was accepted |
| StrictCheckout.VerifiedNeedsSendThenVerify | public/js/checkout.js:93-200 | From the start, verification needs an accepted send followed later by an accepted OTP |
| StrictCheckout.VerifiedEmailMayDiffer | public/js/checkout.js:101-186 | The email field is locked only after verification, so an address other than the one the OTP went to can be verified |
| StrictCheckout.PurchaseGate | public/js/checkout.js:216-238 | The purchase goes on exactly when the trimmed name is non-empty, the trimmed email is valid and verified; it goes on with the title-cased name; each failure gives its own message, in the source's order |
| StrictCheckout.NoRequestUnlessVerified | public/js/checkout.js:216-246 | No request at all unless both fields are filled in, the email is valid and it was verified by OTP |
| StrictCheckout.PaymentDisplay | public/js/checkout.js:342-372 | No error exactly on a successful verification, which shows the code; a refusal shows 'CONTACT SUPPORT' and an error that contains the payment id; an exception shows 'VERIFICATION ERROR'; never the email warning |
| StrictCheckout.ConfirmLabelOverwritten | public/js/checkout.js:131-145 | The 'CONFIRM' label written after a sent OTP is overwritten by the restore in `finally` |
| StrictCheckout.CheckoutPage.constructor | public/js/checkout.js:18-91 | The page starts at step 0, unverified, with empty fields, no messages and no requests |
| StrictCheckout.CheckoutPage.TypeEmail | public/js/checkout.js:186 | Typing in the email field has no effect once it is read-only |
| StrictCheckout.CheckoutPage.HandleSmartAction | public/js/checkout.js:93-200 | The new step is `SmartStep` and the requests grow by `SmartRequest` of the trimmed fields; the whole new state is stated for each case: at step 0 an invalid email adds only the email message, a valid one sends the OTP, moves to step 1 exactly on success and leaves the button restored; at step 1 an empty OTP adds only its message, an accepted one verifies and locks the email with the button disabled at '✓', a refused one adds 'Invalid or Expired OTP.' and restores the button; at step 2 nothing changes |
| StrictCheckout.CheckoutPage.HandleSendOtp | public/js/checkout.js:101-146 | An invalid email only shows a message; a valid one sends the OTP request, moves to step 1 exactly when it succeeded, shows the matching message, and leaves the button restored |
| StrictCheckout.CheckoutPage.HandleVerifyOtp | public/js/checkout.js:148-200 | An empty OTP only shows a message; an accepted one moves to step 2, marks the email verified and read-only, and leaves the button disabled showing '✓'; a refused one shows 'Invalid or Expired OTP.' and restores the button |
| StrictCheckout.CheckoutPage.Purchase | public/js/checkout.js:216-259 | The requests grow by `PurchaseRequests`; a blocked purchase only shows its message; a failed order shows the error and restores the button; dismissal and failure restore it; a payment shows `PaymentDisplay`'s texts; the OTP state and fields never change |
| StrictCheckout.CheckoutPage.OpenRazorpayCheckout | public/js/checkout.js:296-325 | A payment sends the verification and shows its texts with the button at 'VERIFYING...'; a dismissal only restores the button; a failure also shows 'Payment failed' |
| StrictCheckout.CheckoutPage.HandlePaymentSuccess | public/js/checkout.js:330-373 | Sends the verification with the ids, name and email; shows the success area with `PaymentDisplay`'s licence text and error |
| LooseCheckout.PurchaseGate | js/checkout.js:34-51 | The purchase goes on exactly when the trimmed name is non-empty and the trimmed email is valid, with the trimmed values unchanged; each failure gives its own message |
| LooseCheckout.GatesAgreeWhenVerified | js/checkout.js:34-51 | The loose gate lets through exactly what the strict gate lets through for a verified email; they differ only in the title-cased name |
| LooseCheckout.NoRequestUnlessValid | js/checkout.js:34-68 | No request at all unless both fields are filled in and the email is valid |
| LooseCheckout.PaymentDisplay | js/checkout.js:166-189 | As in the strict checkout, with 'ERROR - CONTACT SUPPORT' on a refusal; the email warning appears exactly on a success whose email failed |
| LooseCheckout.DisplaysAgreeOnSuccess | js/checkout.js:166-176 | On a successful verification both checkouts show the same thing, apart from the loose one's email warning |
| LooseCheckout.CheckoutPage.constructor | js/checkout.js:7-29 | The page starts with empty fields, no messages, no warnings and no requests |
| LooseCheckout.CheckoutPage.Purchase | js/checkout.js:34-133 | The requests grow by `PurchaseRequests`; a blocked purchase only shows its message; a failed payment shows both the failure and the generic error and unloads twice; the button ends enabled whenever the purchase went on |
| LooseCheckout.CheckoutPage.HandlePaymentSuccess | js/checkout.js:138-192 | Sends the verification, shows `PaymentDisplay`'s texts, appends the email warning when it is due, and unloads the button |
| LicenseCodes.ToHexLength | public/js/admin.js:95 | A number's hexadecimal digits are at least one, and at most four below 65536 |
| LicenseCodes.UpperHexValue | public/js/admin.js:95 | The digits of `toString(16).toUpperCase()` are upper-case hexadecimal digits that read back as the number |
| LicenseCodes.LeadingZeros | public/js/admin.js:95 | Zeros added in front of a hexadecimal string do not change its value |
| LicenseCodes.Hex4 | public/js/admin.js:95 | Each random part is upper-case hexadecimal digits that read back as the number drawn, four of them below 65536 |
| LicenseCodes.LicenseCode | public/js/admin.js:95-96 | A code starts with `JEWELRY-`; for draws below 65536 it is 17 characters with its second `-` at index 12 |
| LicenseCodes.ParseLicenseCode | public/js/admin.js:95-96 | A string is read as a code exactly when it has the generated shape with upper-case hexadecimal parts, and the numbers read fit in four digits |
| LicenseCodes.Hex4RoundTrip | public/js/admin.js:95 | Each random part is four upper-case hexadecimal digits that read back as the number drawn |
| LicenseCodes.LicenseCodeRoundTrip | public/js/admin.js:95-96 | A generated code has the form `JEWELRY-XXXX-XXXX`, and parsing it gives back both numbers drawn |
| Admin.Search | public/js/admin.js:236-244 | A licence is in the result exactly when it is listed and matches the lower-cased term, as many times as it is listed; the result keeps the list's order |
| Admin.SearchEmptyTermKeepsAll | public/js/admin.js:236-244 | An empty search shows every licence |
| Admin.SearchIgnoresTermCase | public/js/admin.js:237 | The case in which the term is typed does not matter |
| Admin.MatchIgnoresFieldCase | public/js/admin.js:238-241 | The case of a licence's code, name and email does not matter |
| Admin.StatsOf | public/js/admin.js:204-209 | The total is the list's length; the active, revoked and device counts are its filtered lengths; active plus revoked never exceed the total |
| Admin.StatsAppend | public/js/admin.js:204-209 | One more licence adds one to the total and one to each counter it qualifies for |
| Admin.RowFor | public/js/admin.js:166-200 | A row shows the licence's code; it has action buttons exactly for an active licence, and a machine id exactly when one is bound |
| Admin.RenderTable | public/js/admin.js:160-202 | 'No Licenses Found' exactly for an empty list, otherwise one row per licence in order |
| Admin.ActionsOnlyForActive | public/js/admin.js:191-197 | The row at each index has actions exactly when that licence is active |
| Admin.ReportedCode | public/js/admin.js:108 | The alert reports the server's code when it gave a non-empty one, the generated one otherwise |
| Admin.Matches | public/js/admin.js:238-241 | The empty term matches every licence; a matching term is no longer than the code, the name or the email |
| Admin.AfterList | public/js/admin.js:62-92 | A refetch sends one list request and leaves the dialog as it was; a 401 forgets the secret, goes to the login page and alerts; a list replaces the licences and brings the counters up to date; otherwise the licences and counters are kept; counters in step with the list stay so |
| Admin.Dashboard.constructor | public/js/admin.js:5-316 | Without a non-empty stored secret the browser goes to the login page under the base path ('/' by default) and no handler runs; with one, the page load fetches the licence list, so the state is `AfterList` of the blank dashboard |
| Admin.Dashboard.Logout | public/js/admin.js:222-225 | The secret is forgotten and the browser goes to the login page; nothing else changes |
| Admin.Dashboard.FetchLicenses | public/js/admin.js:62-92 | Sends one list request; a 401 alerts, logs out and keeps the old list; a list (empty when the field is missing) replaces the licences, the table and the counters; a failure shows its message in the table |
| Admin.Dashboard.SearchInput | public/js/admin.js:236-244 | The table shows `Search` of the list; nothing else changes |
| Admin.Dashboard.OpenModal | public/js/admin.js:247-249 | Opens the create dialog; nothing else changes |
| Admin.Dashboard.CloseModal | public/js/admin.js:251-255 | Closes the create dialog; nothing else changes |
| Admin.Dashboard.CreateLicenseFor | public/js/admin.js:94-115 | Sends the generated code with the name and email; a failure alerts 'Failed to create license' and changes nothing else; a success alerts the reported code, closes the dialog and refetches |
| Admin.Dashboard.Revoke | public/js/admin.js:117-129 | Nothing without confirmation; a failed fetch adds an alert and changes nothing else, the secret and location included; any answer otherwise refetches, whatever its status |
| Admin.Dashboard.Reset | public/js/admin.js:131-151 | No machine id only alerts; without confirmation nothing happens; a refused or failed reset alerts and changes nothing else, the secret and location included; an ok one alerts 'Machine Unlinked' and refetches |
| EleventyPath.RelativeRoot | src/_data/eleventyComputed.js:15-19 | One `../` per non-empty segment of the URL: three characters per segment, two dots then a slash |
| EleventyPath.PathFor | src/_data/eleventyComputed.js:2-20 | A missing or empty URL gives the empty path; any other gives `RelativeRoot` of the URL |
| EleventyPath.SegmentsAtSlash | src/_data/eleventyComputed.js:15 | A slash only separates the segments on its two sides |
| EleventyPath.LeadingSlashIgnored | src/_data/eleventyComputed.js:15-19 | A leading slash does not change the path |
| EleventyPath.TrailingSlashIgnored | src/_data/eleventyComputed.js:15-19 | A trailing slash does not change the path |
| EleventyPath.DoubledSlashIgnored | src/_data/eleventyComputed.js:15-19 | A doubled slash counts as one |
| EleventyPath.AppendSegment | src/_data/eleventyComputed.js:15-19 | One more segment is one more `../` |
| EleventyPath.RootGivesEmpty | src/_data/eleventyComputed.js:8-19 | A missing URL, an empty one and `/` all give the empty path |
| EleventyPath.TwoSegments | src/_data/eleventyComputed.js:15-19 | A URL `/a/b/` gives `../../` |
| EleventyPath.LegalTermsExample | src/_data/eleventyComputed.js:4 | `/legal/terms/` gives `../../` |
| EleventyPath.DocsExample | src/_data/eleventyComputed.js:5 | `/docs/` gives `../` |
| Placeholders.EnvOr | server.js:21-23 | The variable's value when it is set and non-empty, the default otherwise |
| Placeholders.ReplaceAtFirst | server.js:20-23 | Replacing the first occurrence of a placeholder puts the value in its place and keeps the text around it |
| Server.ValidNameStaysInDirectory | server.js:67 | An accepted page name holds no slash, dot or backslash, so the template it names lies directly in the directory |
| Server.IsValidPageName | server.js:67 | An accepted page name is not empty and holds no slash, dot or backslash; `ValidNameStaysInDirectory` adds that the template it names lies directly in its directory |
| Server.DocsPage | server.js:64-80 | An invalid name gives 'Invalid page'; a template that renders is rendered; a missing `index` gives a server error, another missing page 'Page not found'; only `docs/<page>` is ever rendered |
| Server.LegalPage | server.js:83-93 | An invalid name gives 'Invalid page'; otherwise `legal/<page>` is rendered, or 'Page not found' |
| Server.RenderedPagesStayInDirectory | server.js:64-93 | Every template the two routes render is one segment inside `docs` or `legal` |
| Server.FixedRoute | server.js:43-106 | Exactly the eight fixed paths get an answer; exactly `/admin` redirects, to `/admin/dashboard`; of the pages rendered, only `/gemcrest` loads a script (the checkout); the path is compared literally |
| Server.ServeCheckoutScript | server.js:14-27 | A missing file gives 'Script not found'; otherwise the script with its placeholders filled in |
| Server.ServeAdminScript | server.js:29-37 | A missing file gives 'Script not found'; otherwise the script with its server URL filled in |
| Server.CheckoutScript | server.js:20-23 | A script without any of the three placeholders is served unchanged |
| Server.AdminScript | server.js:34 | An admin script without the server URL placeholder is served unchanged, whatever other placeholders it holds |
| Server.AmountReplacesQuotedPlaceholder | server.js:23 | The quoted amount placeholder is replaced, quotes included, by the amount or '500000', and the text around it is kept |
| Server.CheckoutServerUrlFilled | server.js:21 | The first server URL placeholder of the checkout script is replaced by SERVER_URL or by '', and the text around it is kept |
| Server.CheckoutRazorpayKeyFilled | server.js:22 | The first Razorpay key placeholder of the checkout script is replaced by RAZORPAY_KEY or by '', and the text around it is kept |
| Server.AdminServerUrlFilled | server.js:34 | In the admin script the server URL placeholder becomes the URL or '' |
| BuildStatic.Stem | scripts/build_static.js:53 | The `.ejs` name with its extension removed, which added back gives the file name |
| BuildStatic.DocPage | scripts/build_static.js:53-58 | The page of a docs `.ejs` file renders that file, to its source plus `.html`, with the documentation title |
| BuildStatic.LegalPage | scripts/build_static.js:67-68 | The page of a legal `.ejs` file renders that file, to its source plus `.html`, with the legal title |
| BuildStatic.DocPageUniform | scripts/build_static.js:53-58 | Each docs page renders `docs/<stem>` to `docs/<stem>.html`; the `index` branch gives the same page |
| BuildStatic.PagesOf | scripts/build_static.js:52-59 | One page per template file |
| BuildStatic.PushPages | scripts/build_static.js:52-59 | The loop appends exactly the pages of the files, in order |
| BuildStatic.CollectPages | scripts/build_static.js:39-70 | The page list is the fixed pages, then the docs pages, then the legal pages |
| BuildStatic.PagePlan | scripts/build_static.js:39-70 | The plan has one page per fixed page and per `.ejs` file of each listing |
| BuildStatic.PagePlanShape | scripts/build_static.js:39-70 | The plan starts with the six fixed pages; a page is a docs or legal page exactly when its file is an `.ejs` file of that directory, and each has the expected source, output and title |
| BuildStatic.DocsSectionShape | scripts/build_static.js:49-60 | The docs pages are the `.ejs` files of the docs listing, in order, each with its source, output and title |
| BuildStatic.LegalSectionShape | scripts/build_static.js:63-70 | The legal pages are the `.ejs` files of the legal listing, in order, each with its source, output and title |
| BuildStatic.NormalisedPath | scripts/build_static.js:86-90 | An empty relative path gives `./`; any other is kept with every backslash turned into a slash and one `/` added; the result always ends with `/` and holds no backslash |
| BuildStatic.NormaliseRelativePath | scripts/build_static.js:86-90 | The method gives `NormalisedPath` |
| BuildStatic.ViewData | scripts/build_static.js:93-97 | The page's data with `path` (the relative path) and `ext` ('.html') added; these two win over the page's own entries, and every other entry is kept |
| BuildStatic.JobFor | scripts/build_static.js:75-97 | A job renders its page's `.ejs` source to the page's output; its `path` ends with `/` and holds no backslash, `ext` is '.html', and every other entry of the page's data is kept |
| BuildStatic.RenderPlan | scripts/build_static.js:74-107 | One render job per page, in order, each from its page and its relative path |
| BuildStatic.ReplaceIfSet | scripts/build_static.js:118-126 | An unset variable leaves the text unchanged; a set one replaces the first occurrence of its placeholder by the variable's value |
| BuildStatic.InjectCheckoutConfig | scripts/build_static.js:111-133 | The method gives `BuiltCheckoutScript` |
| BuildStatic.InjectAdminConfig | scripts/build_static.js:136-144 | The method gives `BuiltAdminScript` |
| BuildStatic.BuiltCheckoutScript | scripts/build_static.js:117-127 | With no variable set, or with none of the three placeholders present, the built checkout script is unchanged |
| BuildStatic.BuiltAdminScript | scripts/build_static.js:139-141 | With the server URL unset, or its placeholder absent, the built admin script is unchanged |
| BuildStatic.BuiltAmountReplacesQuotedPlaceholder | scripts/build_static.js:124-126 | With the amount set, the quoted placeholder becomes the amount and the text around it is kept |
| BuildStatic.BuiltRazorpayKeyFilled | scripts/build_static.js:118-120 | With RAZORPAY_KEY set, the first key placeholder of the checkout script becomes the key; unset, it stays; the text around it is kept |
| BuildStatic.BuiltServerUrlFilled | scripts/build_static.js:121-123 | With SERVER_URL set, the first server URL placeholder of the checkout script becomes the URL; unset, it stays; the text around it is kept |
| BuildStatic.BuiltAdminServerUrl | scripts/build_static.js:139-141 | With the server URL set, the admin script's placeholder becomes the URL |
| JsString.TrimSpec | public/js/checkout.js:221-222 | `trim` gives a piece of the string whose prefix and suffix before and after it are all whitespace, and which neither starts nor ends with whitespace; it is empty exactly when the whole string is whitespace |
| JsString.ReplaceFirst | server.js:21-23 | A string `replace` with no occurrence keeps the text; otherwise it replaces the first occurrence only |
| JsString.JoinSplit | src/_data/eleventyComputed.js:15 | Joining the parts of a split with the separator gives the original back |
| JsString.SplitAtSeparator | src/_data/eleventyComputed.js:15 | Splitting around a separator splits each side on its own |
| JsString.SplitPartsLackSeparator | src/_data/eleventyComputed.js:15 | No part of a split holds the separator |
| JsArray.Filter | public/js/admin.js:238-243 | `filter` keeps exactly the elements that satisfy the test |
| JsArray.FilterIsSubsequence | public/js/admin.js:238-243 | The filtered list keeps the original order |
| JsArray.FilterMultiplicity | public/js/admin.js:238-243 | An element that passes the test occurs in the filtered list as often as in the original; one that fails does not occur |

## Left out

- Page markup, CSS classes, focus, scrolling and the copy-to-clipboard buttons are left out. The model keeps only the text, the disabled state and the visibility that the handlers set.
- Asynchrony is left out. Each handler is one step from the event to the answer it awaits. Two clicks racing in flight, and a request still running after the widget was dismissed, are not modelled.
- Timers (`setTimeout` message clearing) are left out.
- `fetchPrice` and the price label are left out: they only format a number for display. The checkout's amount is a constructor parameter.
- `Math.random` is not computed: the two numbers behind a licence code are inputs.
- The server URLs and endpoints are not kept in the recorded requests; only each request's kind and JSON body are.
- The admin refresh button's label change is left out. Its click is `Admin.Dashboard.FetchLicenses`.
- The admin settings form and `fetchSettings` (the global price) are left out: they only read and write a number at the backend.
- Closing the create dialog also clears its two input fields; those fields are not modelled.
- Dates in the table (`createdAt`) are left out, because their formatting depends on the browser's locale.
- File system access is input: directory listings and file contents. `ejs.renderFile` is input too, a verdict per template.
- Left out of the static build: `path.relative` (its result is input), copying the `public` directory, and exiting the process on a render error.
- Express wiring, `dotenv` and the order of middleware are left out. The static file handler goes before the routes; the model treats a request it answers as `None` from `Server.FixedRoute`.
- `String.prototype.replace` with `$` patterns in the replacement is left out; the values are taken literally.
- Case mapping is ASCII only. `toLowerCase`/`toUpperCase` on other letters is not modelled.
- The page elements are assumed to exist; the source's `if (el)` guards on missing elements are not modelled.
- The payment widget is assumed to report one event per purchase. An exception from its constructor is not modelled.
- `showEmailWarning` in `public/js/checkout.js` is defined but never called, so the strict display never warns.
- Server.FixedRoute: paths are matched literally. Express also matches them without regard to case and with a trailing slash, which is not modelled.
- Missing licence fields: a missing field of a licence is modelled as the empty string. A missing code would make the search's `toLowerCase` throw and the table show `undefined`; neither is modelled.
- `js/main.js`, `js/brutalist.js` and the site's configuration files are not part of this model.
- JsString.Split: its own contract only says a split has at least one part. What it means is proved by `JsString.JoinSplit`, `JsString.SplitPartsLackSeparator` and `JsString.SplitAtSeparator`, which keeps the recursive function cheap to use.
- StrictCheckout.Run: its own contract only bounds the step. Reachability is proved by `StrictCheckout.VerifiedNeedsSendThenVerify` and `StrictCheckout.VerifiedFromSent`.

## Notes on the code's behaviour

- **401 handling.** In `public/js/admin.js` only the licence list fetch checks for 401. Creating a licence and unlinking a device check only whether the answer was ok; revoking does not look at the status at all and refetches even on a failed one. None of the three logs out on a 401.
- **The `index` docs fallback.** When `docs/index` fails, the server renders the same template again, so the answer is a server error rather than a fallback page.
- **The 'CONFIRM' label.** After an OTP is sent, `handleSendOTP` writes 'CONFIRM' on the button. Its `finally` block then restores the saved label, so 'CONFIRM' never stays.
- **The verified email.** The email field is locked only after verification. An address other than the one the OTP went to can therefore be verified.
- **Unset placeholders.** The static build leaves a placeholder in place when its variable is unset. The server fills in a default instead ('' or '500000'). The two also fill the placeholders in different orders.
