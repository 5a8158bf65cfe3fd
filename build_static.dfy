/** scripts/build_static.js: the static build. The file system, the EJS
    renderer and `path.relative` are inputs: a directory listing is
    `Some(names)` when the directory exists and `None` when it does not, and
    the relative way from an output directory back to `dist` is a function
    of the page's destination. */
module BuildStatic {
  import opened Optional
  import opened JsString
  import opened JsArray
  import opened Placeholders

  /** The values page data holds: a string or a list of strings. */
  datatype JsValue = Str(s: string) | StrList(items: seq<string>)

  type Data = map<string, JsValue>

  /** One entry of the page table: template, output file, template data. */
  datatype Page = Page(src: string, dest: string, data: Data)

  function Titled(title: string): Data
  {
    map["title" := Str(title)]
  }

  const DocsTitle := "Documentation"
  const LegalTitle := "Legal"

  /** The six pages every build renders, in this order. */
  const FixedPages: seq<Page> := [
    Page("index", "index.html", Titled("Home")),
    Page("gemcrest", "gemcrest.html", map["title" := Str("GemCrest"), "scripts" := StrList(["js/checkout.js"])]),
    Page("about", "about.html", Titled("About Us")),
    Page("contact", "contact.html", Titled("Contact")),
    Page("admin/login", "admin/login.html", Titled("Admin Login")),
    Page("admin/dashboard", "admin/dashboard.html", Titled("Command & Control"))
  ]

  // ---------------------------------------------------------------------
  // The page table
  // ---------------------------------------------------------------------

  /** `f.endsWith('.ejs')`. */
  predicate IsTemplateFile(f: string)
  {
    EndsWith(f, ".ejs")
  }

  /** `path.basename(f, '.ejs')` for a plain file name: the name without its
      `.ejs` suffix, or the name itself when it has none. */
  function Stem(f: string): (name: string)
    ensures IsTemplateFile(f) ==> name + ".ejs" == f
    ensures !IsTemplateFile(f) ==> name == f
  {
    if IsTemplateFile(f) then f[..|f| - 4] else f
  }

  /** The page for a file of the docs directory, with the source's separate
      branch for `index`: the listed template under `docs/`, rendered next
      to it as `.html`. */
  function DocPage(file: string): (p: Page)
    ensures IsTemplateFile(file) ==> p.src + ".ejs" == "docs/" + file
    ensures p.dest == p.src + ".html" && p.data == Titled(DocsTitle)
  {
    var name := Stem(file);
    if name == "index" then
      assert "docs/" + name == "docs/index";
      assert ("docs/" + name) + ".ejs" == "docs/" + (name + ".ejs");
      Page("docs/index", "docs/index.html", Titled(DocsTitle))
    else
      assert ("docs/" + name) + ".ejs" == "docs/" + (name + ".ejs");
      Page("docs/" + name, "docs/" + name + ".html", Titled(DocsTitle))
  }

  /** The page for a file of the legal directory: the listed template under
      `legal/`, rendered next to it as `.html`. */
  function LegalPage(file: string): (p: Page)
    ensures IsTemplateFile(file) ==> p.src + ".ejs" == "legal/" + file
    ensures p.dest == p.src + ".html" && p.data == Titled(LegalTitle)
  {
    var name := Stem(file);
    assert ("legal/" + name) + ".ejs" == "legal/" + (name + ".ejs");
    Page("legal/" + name, "legal/" + name + ".html", Titled(LegalTitle))
  }

  /** The `index` branch builds the same page as every other name. */
  lemma DocPageUniform(file: string)
    ensures DocPage(file) == Page("docs/" + Stem(file), "docs/" + Stem(file) + ".html", Titled(DocsTitle))
  {
    if Stem(file) == "index" {
      assert "docs/" + Stem(file) == "docs/index";
      assert "docs/" + Stem(file) + ".html" == "docs/index.html";
    }
  }

  /** The files of a listing that become pages, in listing order. */
  function TemplateFiles(listing: Option<seq<string>>): seq<string>
  {
    match listing
    case None => []
    case Some(names) => Filter(names, IsTemplateFile)
  }

  /** `make(f)` for each `f` of `files`, in order. */
  function PagesOf(files: seq<string>, make: string -> Page): (pages: seq<Page>)
    ensures |pages| == |files|
    decreases |files|
  {
    if files == [] then [] else PagesOf(files[..|files| - 1], make) + [make(files[|files| - 1])]
  }

  lemma {:induction false} PagesOfAt(files: seq<string>, make: string -> Page, k: nat)
    requires k < |files|
    ensures PagesOf(files, make)[k] == make(files[k])
    decreases |files|
  {
    if k < |files| - 1 {
      PagesOfAt(files[..|files| - 1], make, k);
    }
  }

  /** The page table the build renders. */
  function PagePlan(docsListing: Option<seq<string>>, legalListing: Option<seq<string>>): (plan: seq<Page>)
    ensures |plan| == |FixedPages| + |TemplateFiles(docsListing)| + |TemplateFiles(legalListing)|
  {
    FixedPages + PagesOf(TemplateFiles(docsListing), DocPage) + PagesOf(TemplateFiles(legalListing), LegalPage)
  }

  /** `files.forEach(file => pages.push(make(file)))`. */
  method PushPages(pages0: seq<Page>, files: seq<string>, make: string -> Page) returns (pages: seq<Page>)
    ensures pages == pages0 + PagesOf(files, make)
  {
    pages := pages0;
    var i := 0;
    while i < |files|
      invariant 0 <= i <= |files|
      invariant pages == pages0 + PagesOf(files[..i], make)
    {
      assert files[..i + 1][..i] == files[..i];
      pages := pages + [make(files[i])];
      i := i + 1;
    }
    assert files[..i] == files;
  }

  /** Builds the page table: the fixed pages, then a page per `.ejs` file of
      the docs listing, then one per `.ejs` file of the legal listing. */
  method CollectPages(docsListing: Option<seq<string>>, legalListing: Option<seq<string>>)
    returns (pages: seq<Page>)
    ensures pages == PagePlan(docsListing, legalListing)
  {
    pages := FixedPages;
    if docsListing.Some? {
      var docFiles := Filter(docsListing.value, IsTemplateFile);
      pages := PushPages(pages, docFiles, DocPage);
    }
    if legalListing.Some? {
      var legalFiles := Filter(legalListing.value, IsTemplateFile);
      pages := PushPages(pages, legalFiles, LegalPage);
    }
  }

  /** The `k`-th page of a section of the table is the section's page for
      its `k`-th file. */
  lemma SectionAt(pre: seq<Page>, files: seq<string>, make: string -> Page, post: seq<Page>, k: nat)
    requires k < |files|
    ensures (pre + PagesOf(files, make) + post)[|pre| + k] == make(files[k])
  {
    var section := PagesOf(files, make);
    assert (pre + section + post)[|pre| + k] == section[k];
    PagesOfAt(files, make, k);
  }

  lemma DocsSectionShape(pre: seq<Page>, docs: seq<string>, post: seq<Page>)
    ensures forall k :: 0 <= k < |docs| ==>
      (pre + PagesOf(docs, DocPage) + post)[|pre| + k] ==
        Page("docs/" + Stem(docs[k]), "docs/" + Stem(docs[k]) + ".html", Titled(DocsTitle))
  {
    forall k | 0 <= k < |docs|
      ensures (pre + PagesOf(docs, DocPage) + post)[|pre| + k] ==
        Page("docs/" + Stem(docs[k]), "docs/" + Stem(docs[k]) + ".html", Titled(DocsTitle))
    {
      SectionAt(pre, docs, DocPage, post, k);
      DocPageUniform(docs[k]);
    }
  }

  lemma LegalSectionShape(pre: seq<Page>, legal: seq<string>)
    ensures forall k :: 0 <= k < |legal| ==>
      (pre + PagesOf(legal, LegalPage))[|pre| + k] ==
        Page("legal/" + Stem(legal[k]), "legal/" + Stem(legal[k]) + ".html", Titled(LegalTitle))
  {
    forall k | 0 <= k < |legal|
      ensures (pre + PagesOf(legal, LegalPage))[|pre| + k] ==
        Page("legal/" + Stem(legal[k]), "legal/" + Stem(legal[k]) + ".html", Titled(LegalTitle))
    {
      SectionAt(pre, legal, LegalPage, [], k);
      assert pre + PagesOf(legal, LegalPage) + [] == pre + PagesOf(legal, LegalPage);
    }
  }

  /** The page table has the six fixed pages first; then, in listing order,
      `docs/N` rendered to `docs/N.html` for each file `N.ejs` of the docs
      listing; then `legal/N` to `legal/N.html` for each `N.ejs` of the legal
      listing. Each listed file becomes a page exactly when it ends in
      `.ejs`. */
  lemma PagePlanShape(docsListing: Option<seq<string>>, legalListing: Option<seq<string>>)
    ensures var plan := PagePlan(docsListing, legalListing);
      var docs := TemplateFiles(docsListing);
      var legal := TemplateFiles(legalListing);
      && |plan| == |FixedPages| + |docs| + |legal|
      && plan[..|FixedPages|] == FixedPages
      && (forall k :: 0 <= k < |docs| ==>
            plan[|FixedPages| + k] == Page("docs/" + Stem(docs[k]), "docs/" + Stem(docs[k]) + ".html", Titled(DocsTitle)))
      && (forall k :: 0 <= k < |legal| ==>
            plan[|FixedPages| + |docs| + k] == Page("legal/" + Stem(legal[k]), "legal/" + Stem(legal[k]) + ".html", Titled(LegalTitle)))
    ensures forall f :: f in TemplateFiles(docsListing) <==> docsListing.Some? && f in docsListing.value && IsTemplateFile(f)
    ensures forall f :: f in TemplateFiles(legalListing) <==> legalListing.Some? && f in legalListing.value && IsTemplateFile(f)
  {
    SectionsShape(FixedPages, TemplateFiles(docsListing), TemplateFiles(legalListing));
    FilterMembers(docsListing);
    FilterMembers(legalListing);
  }

  /** The sections after any fixed prefix `fixed`. */
  lemma SectionsShape(fixed: seq<Page>, docs: seq<string>, legal: seq<string>)
    ensures var plan := fixed + PagesOf(docs, DocPage) + PagesOf(legal, LegalPage);
      && |plan| == |fixed| + |docs| + |legal|
      && plan[..|fixed|] == fixed
      && (forall k :: 0 <= k < |docs| ==>
            plan[|fixed| + k] == Page("docs/" + Stem(docs[k]), "docs/" + Stem(docs[k]) + ".html", Titled(DocsTitle)))
      && (forall k :: 0 <= k < |legal| ==>
            plan[|fixed| + |docs| + k] == Page("legal/" + Stem(legal[k]), "legal/" + Stem(legal[k]) + ".html", Titled(LegalTitle)))
  {
    var docPages := PagesOf(docs, DocPage);
    var legalPages := PagesOf(legal, LegalPage);
    var plan := fixed + docPages + legalPages;
    assert plan[..|fixed|] == fixed;
    assert forall k :: 0 <= k < |docs| ==>
      plan[|fixed| + k] == Page("docs/" + Stem(docs[k]), "docs/" + Stem(docs[k]) + ".html", Titled(DocsTitle))
    by {
      DocsSectionShape(fixed, docs, legalPages);
    }
    assert forall k :: 0 <= k < |legal| ==>
      plan[|fixed| + |docs| + k] == Page("legal/" + Stem(legal[k]), "legal/" + Stem(legal[k]) + ".html", Titled(LegalTitle))
    by {
      LegalSectionShape(fixed + docPages, legal);
      assert |fixed + docPages| == |fixed| + |docs|;
    }
  }

  lemma FilterMembers(listing: Option<seq<string>>)
    ensures forall f :: f in TemplateFiles(listing) <==> listing.Some? && f in listing.value && IsTemplateFile(f)
  {
  }

  // ---------------------------------------------------------------------
  // Rendering data
  // ---------------------------------------------------------------------

  /** The relative path as the build post-processes it: `'.'` for `''`,
      then a `'/'` appended, then every backslash turned into a slash. */
  function NormalisedPath(rel: string): (r: string)
    ensures rel == "" ==> r == "./"
    ensures rel != "" ==> |r| == |rel| + 1
    ensures rel != "" ==> forall k :: 0 <= k < |rel| ==> r[k] == if rel[k] == '\\' then '/' else rel[k]
    ensures EndsWith(r, "/")
    ensures '\\' !in r
  {
    var p := if rel == "" then "." else rel;
    var r := ReplaceAllChar(p + "/", '\\', '/');
    assert r[|r| - 1] == '/';
    r
  }

  /** The step-by-step rewrite of `relativePath`. */
  method NormaliseRelativePath(rel: string) returns (relativePath: string)
    ensures relativePath == NormalisedPath(rel)
  {
    relativePath := rel;
    if relativePath == "" {
      relativePath := ".";
    }
    relativePath := relativePath + "/";
    relativePath := ReplaceAllChar(relativePath, '\\', '/');
  }

  /** `{...data, path: relativePath, ext: '.html'}`. */
  function ViewData(data: Data, relativePath: string): (v: Data)
    ensures v.Keys == data.Keys + {"path", "ext"}
    ensures v["path"] == Str(relativePath) && v["ext"] == Str(".html")
    ensures forall key :: key in data && key != "path" && key != "ext" ==> v[key] == data[key]
  {
    data["path" := Str(relativePath)]["ext" := Str(".html")]
  }

  /** One `ejs.renderFile` call: template file, output file, data. */
  datatype RenderJob = RenderJob(template: string, output: string, view: Data)

  /** The job for `page`, given `path.relative(outputDir, dist)`: it
      renders the page's template with the page's data, a `path` that ends
      in `/` and holds no backslash, and `ext` `.html`. */
  function JobFor(page: Page, relative: string): (job: RenderJob)
    ensures job.template == page.src + ".ejs" && job.output == page.dest
    ensures "path" in job.view && "ext" in job.view
    ensures forall key :: key in page.data ==> key in job.view
    ensures job.view["path"].Str? && EndsWith(job.view["path"].s, "/") && '\\' !in job.view["path"].s
    ensures job.view["ext"] == Str(".html")
    ensures forall key :: key in page.data && key != "path" && key != "ext" ==> job.view[key] == page.data[key]
  {
    RenderJob(page.src + ".ejs", page.dest, ViewData(page.data, NormalisedPath(relative)))
  }

  /** The render loop: one job per page, in table order. */
  method RenderPlan(pages: seq<Page>, relativeOf: string -> string) returns (jobs: seq<RenderJob>)
    ensures |jobs| == |pages|
    ensures forall k :: 0 <= k < |pages| ==> jobs[k] == JobFor(pages[k], relativeOf(pages[k].dest))
  {
    jobs := [];
    var i := 0;
    while i < |pages|
      invariant 0 <= i <= |pages|
      invariant |jobs| == i
      invariant forall k :: 0 <= k < i ==> jobs[k] == JobFor(pages[k], relativeOf(pages[k].dest))
    {
      var page := pages[i];
      var relativePath := NormaliseRelativePath(relativeOf(page.dest));
      var viewData := ViewData(page.data, relativePath);
      jobs := jobs + [RenderJob(page.src + ".ejs", page.dest, viewData)];
      i := i + 1;
    }
  }

  // ---------------------------------------------------------------------
  // Configuration injection
  // ---------------------------------------------------------------------

  /** `content.replace(placeholder, env[key])` when the variable is set. */
  function ReplaceIfSet(content: string, env: Env, key: string, placeholder: string): (r: string)
    ensures !IsSet(env, key) ==> r == content
    ensures IsSet(env, key) ==> r == ReplaceFirst(content, placeholder, env[key])
  {
    if IsSet(env, key) then ReplaceFirst(content, placeholder, env[key]) else content
  }

  /** `dist/js/checkout.js` after injection: RAZORPAY_KEY, SERVER_URL and
      AMOUNT in this order, each only when set. With none set, or with no
      placeholder in the script, it stays as it is. */
  function BuiltCheckoutScript(content: string, env: Env): (r: string)
    ensures !IsSet(env, "RAZORPAY_KEY") && !IsSet(env, "SERVER_URL") && !IsSet(env, "AMOUNT") ==> r == content
    ensures Absent(content, RazorpayKeyPlaceholder) && Absent(content, ServerUrlPlaceholder) && Absent(content, AmountPlaceholder) ==>
      r == content
  {
    var withKey := ReplaceIfSet(content, env, "RAZORPAY_KEY", RazorpayKeyPlaceholder);
    var withUrl := ReplaceIfSet(withKey, env, "SERVER_URL", ServerUrlPlaceholder);
    ReplaceIfSet(withUrl, env, "AMOUNT", AmountPlaceholder)
  }

  /** `dist/js/admin.js` after injection: only SERVER_URL, when set. */
  function BuiltAdminScript(content: string, env: Env): (r: string)
    ensures !IsSet(env, "SERVER_URL") || Absent(content, ServerUrlPlaceholder) ==> r == content
  {
    ReplaceIfSet(content, env, "SERVER_URL", ServerUrlPlaceholder)
  }

  /** `replaceConfig()` rewriting `content` step by step. */
  method InjectCheckoutConfig(original: string, env: Env) returns (content: string)
    ensures content == BuiltCheckoutScript(original, env)
  {
    content := original;
    if IsSet(env, "RAZORPAY_KEY") {
      content := ReplaceFirst(content, RazorpayKeyPlaceholder, env["RAZORPAY_KEY"]);
    }
    if IsSet(env, "SERVER_URL") {
      content := ReplaceFirst(content, ServerUrlPlaceholder, env["SERVER_URL"]);
    }
    if IsSet(env, "AMOUNT") {
      content := ReplaceFirst(content, AmountPlaceholder, env["AMOUNT"]);
    }
  }

  /** The admin script's injection step. */
  method InjectAdminConfig(original: string, env: Env) returns (content: string)
    ensures content == BuiltAdminScript(original, env)
  {
    content := original;
    if IsSet(env, "SERVER_URL") {
      content := ReplaceFirst(content, ServerUrlPlaceholder, env["SERVER_URL"]);
    }
  }

  /** The first quoted amount placeholder becomes the amount without its
      quotes when AMOUNT is set, and stays when it is not; the text around
      it is kept. */
  lemma BuiltAmountReplacesQuotedPlaceholder(a: string, b: string, env: Env)
    requires Absent(a + AmountPlaceholder + b, ServerUrlPlaceholder)
    requires Absent(a + AmountPlaceholder + b, RazorpayKeyPlaceholder)
    requires forall j :: 0 <= j < |a| ==> !OccursAt(a + AmountPlaceholder + b, AmountPlaceholder, j)
    ensures BuiltCheckoutScript(a + AmountPlaceholder + b, env) ==
      a + (if IsSet(env, "AMOUNT") then env["AMOUNT"] else AmountPlaceholder) + b
  {
    var s := a + AmountPlaceholder + b;
    assert ReplaceIfSet(s, env, "RAZORPAY_KEY", RazorpayKeyPlaceholder) == s;
    assert ReplaceIfSet(s, env, "SERVER_URL", ServerUrlPlaceholder) == s;
    if IsSet(env, "AMOUNT") {
      ReplaceAtFirst(a, AmountPlaceholder, b, env["AMOUNT"]);
    }
  }

  /** The first Razorpay key placeholder of `checkout.js` becomes
      RAZORPAY_KEY when it is set and stays when it is not; the text around
      it is kept. The server URL and amount placeholders are absent from the
      text the later steps see. */
  lemma BuiltRazorpayKeyFilled(a: string, b: string, env: Env)
    requires forall j :: 0 <= j < |a| ==> !OccursAt(a + RazorpayKeyPlaceholder + b, RazorpayKeyPlaceholder, j)
    requires var v := if IsSet(env, "RAZORPAY_KEY") then env["RAZORPAY_KEY"] else RazorpayKeyPlaceholder;
      Absent(a + v + b, ServerUrlPlaceholder) && Absent(a + v + b, AmountPlaceholder)
    ensures BuiltCheckoutScript(a + RazorpayKeyPlaceholder + b, env) ==
      a + (if IsSet(env, "RAZORPAY_KEY") then env["RAZORPAY_KEY"] else RazorpayKeyPlaceholder) + b
  {
    var t := a + (if IsSet(env, "RAZORPAY_KEY") then env["RAZORPAY_KEY"] else RazorpayKeyPlaceholder) + b;
    if IsSet(env, "RAZORPAY_KEY") {
      ReplaceAtFirst(a, RazorpayKeyPlaceholder, b, env["RAZORPAY_KEY"]);
    }
    assert ReplaceIfSet(a + RazorpayKeyPlaceholder + b, env, "RAZORPAY_KEY", RazorpayKeyPlaceholder) == t;
    assert ReplaceIfSet(t, env, "SERVER_URL", ServerUrlPlaceholder) == t;
    assert ReplaceIfSet(t, env, "AMOUNT", AmountPlaceholder) == t;
  }

  /** The first server URL placeholder of `checkout.js` becomes SERVER_URL
      when it is set and stays when it is not; the text around it is kept.
      The key placeholder is absent from the script, and the amount
      placeholder from the text the last step sees. */
  lemma BuiltServerUrlFilled(a: string, b: string, env: Env)
    requires Absent(a + ServerUrlPlaceholder + b, RazorpayKeyPlaceholder)
    requires forall j :: 0 <= j < |a| ==> !OccursAt(a + ServerUrlPlaceholder + b, ServerUrlPlaceholder, j)
    requires var v := if IsSet(env, "SERVER_URL") then env["SERVER_URL"] else ServerUrlPlaceholder;
      Absent(a + v + b, AmountPlaceholder)
    ensures BuiltCheckoutScript(a + ServerUrlPlaceholder + b, env) ==
      a + (if IsSet(env, "SERVER_URL") then env["SERVER_URL"] else ServerUrlPlaceholder) + b
  {
    var s := a + ServerUrlPlaceholder + b;
    var t := a + (if IsSet(env, "SERVER_URL") then env["SERVER_URL"] else ServerUrlPlaceholder) + b;
    assert ReplaceIfSet(s, env, "RAZORPAY_KEY", RazorpayKeyPlaceholder) == s;
    if IsSet(env, "SERVER_URL") {
      ReplaceAtFirst(a, ServerUrlPlaceholder, b, env["SERVER_URL"]);
    }
    assert ReplaceIfSet(s, env, "SERVER_URL", ServerUrlPlaceholder) == t;
    assert ReplaceIfSet(t, env, "AMOUNT", AmountPlaceholder) == t;
  }

  /** The first server URL placeholder of `admin.js` becomes SERVER_URL when
      it is set and stays when it is not; the text around it is kept. */
  lemma BuiltAdminServerUrl(a: string, b: string, env: Env)
    requires forall j :: 0 <= j < |a| ==> !OccursAt(a + ServerUrlPlaceholder + b, ServerUrlPlaceholder, j)
    ensures BuiltAdminScript(a + ServerUrlPlaceholder + b, env) ==
      a + (if IsSet(env, "SERVER_URL") then env["SERVER_URL"] else ServerUrlPlaceholder) + b
  {
    if IsSet(env, "SERVER_URL") {
      ReplaceAtFirst(a, ServerUrlPlaceholder, b, env["SERVER_URL"]);
    }
  }
}
