/** src/_data/eleventyComputed.js: the `path` value every page template
    gets, the relative way from the page's output URL back to the site root
    (`/legal/terms/` gives `../../`). */
module EleventyPath {
  import opened Optional
  import opened JsString
  import opened JsArray

  predicate NonEmpty(s: string) { |s| > 0 }

  /** `url.split('/').filter(s => s.length > 0)`. */
  function Segments(url: string): seq<string>
  {
    Filter(Split(url, '/'), NonEmpty)
  }

  /** `'../'` once per non-empty segment of `url` (`''` for none): three
      characters per segment, two dots then a slash. */
  function RelativeRoot(url: string): (r: string)
    ensures r == Repeat("../", |Segments(url)|)
    ensures |r| == 3 * |Segments(url)|
    ensures forall k :: 0 <= k < |r| ==> r[k] == (if k % 3 == 2 then '/' else '.')
  {
    var depth := |Segments(url)|;
    RepeatLength("../", depth);
    assert forall k :: 0 <= k < 3 * depth ==> Repeat("../", depth)[k] == (if k % 3 == 2 then '/' else '.') by {
      forall k | 0 <= k < 3 * depth
        ensures Repeat("../", depth)[k] == (if k % 3 == 2 then '/' else '.')
      {
        UpLevelAt(depth, k);
      }
    }
    if depth == 0 then "" else Repeat("../", depth)
  }

  /** The `k`-th character of `n` copies of `../`. */
  lemma {:induction false} UpLevelAt(n: nat, k: nat)
    requires k < 3 * n
    ensures |Repeat("../", n)| == 3 * n
    ensures Repeat("../", n)[k] == (if k % 3 == 2 then '/' else '.')
    decreases n
  {
    RepeatLength("../", n);
    if k >= 3 {
      UpLevelAt(n - 1, k - 3);
      assert Repeat("../", n)[k] == Repeat("../", n - 1)[k - 3];
    }
  }

  /** The computed `path(data)` for `data.page.url`, with "/" standing in for
      a missing or empty URL. */
  function PathFor(pageUrl: Option<string>): (r: string)
    ensures pageUrl.None? || pageUrl.value == "" ==> r == ""
    ensures pageUrl.Some? && pageUrl.value != "" ==> r == RelativeRoot(pageUrl.value)
  {
    SegmentsAtSlash("", "");
    SegmentsOfEmpty();
    assert "" + "/" + "" == "/";
    RelativeRoot(if pageUrl.Some? && pageUrl.value != "" then pageUrl.value else "/")
  }

  /** A slash between two parts of a URL only separates their segments. */
  lemma SegmentsAtSlash(a: string, b: string)
    ensures Segments(a + "/" + b) == Segments(a) + Segments(b)
  {
    assert a + "/" + b == a + ['/'] + b;
    SplitAtSeparator(a, b, '/');
    FilterConcat(Split(a, '/'), Split(b, '/'), NonEmpty);
  }

  /** A non-empty name without a slash is one segment. */
  lemma SegmentsOfName(w: string)
    requires w != "" && '/' !in w
    ensures Segments(w) == [w]
  {
    SplitWithoutSeparator(w, '/');
    assert Filter([w], NonEmpty) == [w] + Filter([w][1..], NonEmpty);
  }

  lemma SegmentsOfEmpty()
    ensures Segments("") == []
  {
    assert Split("", '/') == [""];
    assert Filter([""], NonEmpty) == Filter([""][1..], NonEmpty);
  }

  /** A leading slash does not change the depth. */
  lemma LeadingSlashIgnored(url: string)
    ensures RelativeRoot("/" + url) == RelativeRoot(url)
  {
    SegmentsAtSlash("", url);
    SegmentsOfEmpty();
    assert "" + "/" + url == "/" + url;
  }

  /** A trailing slash does not change the depth. */
  lemma TrailingSlashIgnored(url: string)
    ensures RelativeRoot(url + "/") == RelativeRoot(url)
  {
    SegmentsAtSlash(url, "");
    SegmentsOfEmpty();
    assert url + "/" + "" == url + "/";
  }

  /** A doubled slash counts as one. */
  lemma DoubledSlashIgnored(a: string, b: string)
    ensures RelativeRoot(a + "//" + b) == RelativeRoot(a + "/" + b)
  {
    SegmentsAtSlash(a, "/" + b);
    SegmentsAtSlash("", b);
    SegmentsAtSlash(a, b);
    SegmentsOfEmpty();
    assert a + "/" + ("/" + b) == a + "//" + b;
    assert "" + "/" + b == "/" + b;
  }

  /** One more segment is one more `'../'`. */
  lemma AppendSegment(url: string, name: string)
    requires name != "" && '/' !in name
    ensures RelativeRoot(url + "/" + name) == RelativeRoot(url) + "../"
  {
    SegmentsAtSlash(url, name);
    SegmentsOfName(name);
    var k := |Segments(url)|;
    RepeatAdd("../", k, 1);
    assert Repeat("../", 1) == "../";
  }

  /** A missing URL, an empty one and the root all give `''`. */
  lemma RootGivesEmpty()
    ensures PathFor(None) == "" && PathFor(Some("")) == "" && PathFor(Some("/")) == ""
  {
    SegmentsAtSlash("", "");
    SegmentsOfEmpty();
    assert "" + "/" + "" == "/";
  }

  lemma RootOfEmpty()
    ensures RelativeRoot("") == ""
  {
    SegmentsOfEmpty();
  }

  /** A URL of two names between slashes is two segments deep. */
  lemma TwoSegments(a: string, b: string)
    requires a != "" && '/' !in a && b != "" && '/' !in b
    ensures RelativeRoot("/" + a + "/" + b + "/") == "../../"
  {
    RootOfEmpty();
    assert "" + "/" + a == "/" + a;
    AppendSegment("", a);
    AppendSegment("/" + a, b);
    TrailingSlashIgnored("/" + a + "/" + b);
  }

  /** `/legal/terms/` is two segments deep. */
  lemma LegalTermsExample()
    ensures PathFor(Some("/legal/terms/")) == "../../"
  {
    TwoSegments("legal", "terms");
    assert "/" + "legal" + "/" + "terms" + "/" == "/legal/terms/";
  }

  /** `/docs/` is one segment deep. */
  lemma DocsExample()
    ensures PathFor(Some("/docs/")) == "../"
  {
    RootOfEmpty();
    assert "" + "/" + "docs" == "/docs";
    AppendSegment("", "docs");
    assert "/docs" + "/" == "/docs/";
    TrailingSlashIgnored("/docs");
  }
}
