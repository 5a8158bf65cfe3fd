/** server.js: the Express server's handlers. Each computes a response from
    the request path, the environment and, as inputs, what the file system
    and the template engine report. */
module Server {
  import opened Optional
  import opened JsString
  import opened Placeholders

  /** `res.render(template, {title, scripts})`, a 404 with its body, the
      500 Express answers when a render without callback fails, a redirect,
      or a script sent as `application/javascript`. */
  datatype Response =
    | Render(template: string, title: string, scripts: seq<string>)
    | NotFound(body: string)
    | ServerError
    | Redirect(location: string)
    | Script(body: string)

  // ---------------------------------------------------------------------
  // Page names
  // ---------------------------------------------------------------------

  /** A character of the class `[a-z0-9-]`. */
  predicate IsPageChar(c: char)
  {
    ('a' <= c <= 'z') || ('0' <= c <= '9') || c == '-'
  }

  /** `/^[a-z0-9-]+$/.test(page)`: an accepted name is not empty and holds
      no slash, dot or backslash. */
  predicate IsValidPageName(page: string)
    ensures IsValidPageName(page) ==> page != "" && '/' !in page && '.' !in page && '\\' !in page
  {
    page != "" && forall k :: 0 <= k < |page| ==> IsPageChar(page[k])
  }

  /** An accepted name holds no separator and no dot, so the template it
      names lies directly under the given directory. */
  lemma ValidNameStaysInDirectory(dir: string, page: string)
    requires IsValidPageName(page)
    requires dir != "" && '/' !in dir
    ensures '/' !in page && '.' !in page && '\\' !in page
    ensures Split(dir + "/" + page, '/') == [dir, page]
  {
    assert dir + "/" + page == dir + ['/'] + page;
    SplitAtSeparator(dir, page, '/');
    SplitWithoutSeparator(dir, '/');
    SplitWithoutSeparator(page, '/');
  }

  // ---------------------------------------------------------------------
  // Page routes
  // ---------------------------------------------------------------------

  const DocsTitle := "Documentation"
  const InvalidPage := "Invalid page"
  const PageNotFound := "Page not found"

  /** `GET /docs/:page`; `renders(t)` says whether template `t` renders.
      When `docs/index` fails, the fallback renders the same template again,
      and its failure goes to Express's error handler. */
  function DocsPage(page: string, renders: string -> bool): (r: Response)
    ensures !IsValidPageName(page) ==> r == NotFound(InvalidPage)
    ensures IsValidPageName(page) && renders("docs/" + page) ==> r == Render("docs/" + page, DocsTitle, [])
    ensures IsValidPageName(page) && !renders("docs/" + page) ==>
      r == if page == "index" then ServerError else NotFound(PageNotFound)
    ensures r.Render? ==> IsValidPageName(page) && r.template == "docs/" + page
  {
    if !IsValidPageName(page) then NotFound(InvalidPage)
    else if renders("docs/" + page) then Render("docs/" + page, DocsTitle, [])
    else if page == "index" then
      assert "docs/" + page == "docs/index";
      (if renders("docs/index") then Render("docs/index", DocsTitle, []) else ServerError)
    else NotFound(PageNotFound)
  }

  /** `GET /legal/:page`. */
  function LegalPage(page: string, renders: string -> bool): (r: Response)
    ensures !IsValidPageName(page) ==> r == NotFound(InvalidPage)
    ensures IsValidPageName(page) ==>
      r == if renders("legal/" + page) then Render("legal/" + page, "Legal", []) else NotFound(PageNotFound)
  {
    if !IsValidPageName(page) then NotFound(InvalidPage)
    else if renders("legal/" + page) then Render("legal/" + page, "Legal", [])
    else NotFound(PageNotFound)
  }

  /** Every page these two routes render is a template directly under
      `docs/` or `legal/`. */
  lemma RenderedPagesStayInDirectory(page: string, renders: string -> bool)
    ensures DocsPage(page, renders).Render? ==> Split(DocsPage(page, renders).template, '/') == ["docs", page]
    ensures LegalPage(page, renders).Render? ==> Split(LegalPage(page, renders).template, '/') == ["legal", page]
  {
    if IsValidPageName(page) {
      ValidNameStaysInDirectory("docs", page);
      ValidNameStaysInDirectory("legal", page);
      assert "docs" + "/" + page == "docs/" + page;
      assert "legal" + "/" + page == "legal/" + page;
    }
  }

  /** The paths `FixedRoute` answers. */
  const FixedPaths: set<string> :=
    {"/", "/gemcrest", "/about", "/contact", "/docs", "/admin", "/admin/login", "/admin/dashboard"}

  /** The routes with a fixed path; `None` leaves the request to the static
      files. Only the product page loads the checkout script. */
  function FixedRoute(path: string): (r: Option<Response>)
    ensures r.Some? <==> path in FixedPaths
    ensures r.Some? && r.value.Redirect? <==> path == "/admin"
    ensures path == "/admin" ==> r == Some(Redirect("/admin/dashboard"))
    ensures r.Some? && r.value.Render? ==> (r.value.scripts == [] <==> path != "/gemcrest")
  {
    if path == "/" then Some(Render("index", "Home", []))
    else if path == "/gemcrest" then Some(Render("gemcrest", "GemCrest", ["/js/checkout.js"]))
    else if path == "/about" then Some(Render("about", "About Us", []))
    else if path == "/contact" then Some(Render("contact", "Contact", []))
    else if path == "/docs" then Some(Render("docs/index", DocsTitle, []))
    else if path == "/admin" then Some(Redirect("/admin/dashboard"))
    else if path == "/admin/login" then Some(Render("admin/login", "Admin Login", []))
    else if path == "/admin/dashboard" then Some(Render("admin/dashboard", "Command & Control", []))
    else None
  }

  // ---------------------------------------------------------------------
  // Scripts with the environment filled in
  // ---------------------------------------------------------------------

  /** The body of `GET /js/checkout.js`: each placeholder's first occurrence
      replaced, in this order, by SERVER_URL (default ''), RAZORPAY_KEY
      (default '') and AMOUNT (default '500000'). A script without
      placeholders is served as it is. */
  function CheckoutScript(data: string, env: Env): (r: string)
    ensures Absent(data, ServerUrlPlaceholder) && Absent(data, RazorpayKeyPlaceholder) && Absent(data, AmountPlaceholder) ==>
      r == data
  {
    var withUrl := ReplaceFirst(data, ServerUrlPlaceholder, EnvOr(env, "SERVER_URL", ""));
    var withKey := ReplaceFirst(withUrl, RazorpayKeyPlaceholder, EnvOr(env, "RAZORPAY_KEY", ""));
    ReplaceFirst(withKey, AmountPlaceholder, EnvOr(env, "AMOUNT", "500000"))
  }

  /** The body of `GET /js/admin.js`: only the server URL is filled in, so
      a script without that placeholder is served as it is, whatever other
      placeholders it holds. */
  function AdminScript(data: string, env: Env): (r: string)
    ensures Absent(data, ServerUrlPlaceholder) ==> r == data
  {
    ReplaceFirst(data, ServerUrlPlaceholder, EnvOr(env, "SERVER_URL", ""))
  }

  /** `GET /js/checkout.js`; `file` is the file's text, or `None` when it
      cannot be read. */
  function ServeCheckoutScript(file: Option<string>, env: Env): (r: Response)
    ensures file.None? ==> r == NotFound("Script not found")
    ensures file.Some? ==> r == Script(CheckoutScript(file.value, env))
  {
    match file
    case None => NotFound("Script not found")
    case Some(data) => Script(CheckoutScript(data, env))
  }

  /** `GET /js/admin.js`. */
  function ServeAdminScript(file: Option<string>, env: Env): (r: Response)
    ensures file.None? ==> r == NotFound("Script not found")
    ensures file.Some? ==> r == Script(AdminScript(file.value, env))
  {
    match file
    case None => NotFound("Script not found")
    case Some(data) => Script(AdminScript(data, env))
  }


  /** The quoted amount placeholder is replaced, quotes and all, by the
      amount or by '500000'; the text around it is kept. */
  lemma AmountReplacesQuotedPlaceholder(a: string, b: string, env: Env)
    requires Absent(a + AmountPlaceholder + b, ServerUrlPlaceholder)
    requires Absent(a + AmountPlaceholder + b, RazorpayKeyPlaceholder)
    requires forall j :: 0 <= j < |a| ==> !OccursAt(a + AmountPlaceholder + b, AmountPlaceholder, j)
    ensures CheckoutScript(a + AmountPlaceholder + b, env) == a + EnvOr(env, "AMOUNT", "500000") + b
  {
    var s := a + AmountPlaceholder + b;
    assert ReplaceFirst(s, ServerUrlPlaceholder, EnvOr(env, "SERVER_URL", "")) == s;
    assert ReplaceFirst(s, RazorpayKeyPlaceholder, EnvOr(env, "RAZORPAY_KEY", "")) == s;
    ReplaceAtFirst(a, AmountPlaceholder, b, EnvOr(env, "AMOUNT", "500000"));
  }

  /** The first server URL placeholder of `checkout.js` is replaced by the
      URL or by ''; the text around it is kept. The key and amount
      placeholders are absent from the text the later steps see. */
  lemma CheckoutServerUrlFilled(a: string, b: string, env: Env)
    requires forall j :: 0 <= j < |a| ==> !OccursAt(a + ServerUrlPlaceholder + b, ServerUrlPlaceholder, j)
    requires Absent(a + EnvOr(env, "SERVER_URL", "") + b, RazorpayKeyPlaceholder)
    requires Absent(a + EnvOr(env, "SERVER_URL", "") + b, AmountPlaceholder)
    ensures CheckoutScript(a + ServerUrlPlaceholder + b, env) == a + EnvOr(env, "SERVER_URL", "") + b
  {
    var t := a + EnvOr(env, "SERVER_URL", "") + b;
    ReplaceAtFirst(a, ServerUrlPlaceholder, b, EnvOr(env, "SERVER_URL", ""));
    assert ReplaceFirst(t, RazorpayKeyPlaceholder, EnvOr(env, "RAZORPAY_KEY", "")) == t;
    assert ReplaceFirst(t, AmountPlaceholder, EnvOr(env, "AMOUNT", "500000")) == t;
  }

  /** The first Razorpay key placeholder of `checkout.js` is replaced by the
      key or by ''; the text around it is kept. The server URL placeholder
      is absent from the script, and the amount placeholder from the text
      the last step sees. */
  lemma CheckoutRazorpayKeyFilled(a: string, b: string, env: Env)
    requires Absent(a + RazorpayKeyPlaceholder + b, ServerUrlPlaceholder)
    requires forall j :: 0 <= j < |a| ==> !OccursAt(a + RazorpayKeyPlaceholder + b, RazorpayKeyPlaceholder, j)
    requires Absent(a + EnvOr(env, "RAZORPAY_KEY", "") + b, AmountPlaceholder)
    ensures CheckoutScript(a + RazorpayKeyPlaceholder + b, env) == a + EnvOr(env, "RAZORPAY_KEY", "") + b
  {
    var s := a + RazorpayKeyPlaceholder + b;
    var t := a + EnvOr(env, "RAZORPAY_KEY", "") + b;
    assert ReplaceFirst(s, ServerUrlPlaceholder, EnvOr(env, "SERVER_URL", "")) == s;
    ReplaceAtFirst(a, RazorpayKeyPlaceholder, b, EnvOr(env, "RAZORPAY_KEY", ""));
    assert ReplaceFirst(t, AmountPlaceholder, EnvOr(env, "AMOUNT", "500000")) == t;
  }

  /** In `admin.js` the first server URL placeholder is replaced by the URL
      or by ''; the text around it is kept. */
  lemma AdminServerUrlFilled(a: string, b: string, env: Env)
    requires forall j :: 0 <= j < |a| ==> !OccursAt(a + ServerUrlPlaceholder + b, ServerUrlPlaceholder, j)
    ensures AdminScript(a + ServerUrlPlaceholder + b, env) == a + EnvOr(env, "SERVER_URL", "") + b
  {
    ReplaceAtFirst(a, ServerUrlPlaceholder, b, EnvOr(env, "SERVER_URL", ""));
  }
}
