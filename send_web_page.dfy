/** The page-sending step of the OAuth provider
    (packages/oauth/oauth-provider/src/output/send-web-page.ts): each script and
    style of a page is classified into the Content-Security-Policy source
    expression that allows it, the classifications form a derived partial
    policy, and the default policy, the caller's policy and the derived one are
    merged, in that order, into the policy handed to the response writer. */
module WebPage {
  import opened Wrappers
  import opened Csp

  /** A page asset: inline HTML content, an ordered sequence of text fragments,
      or a reference to an external resource by URL. */
  datatype Asset = Inline(fragments: seq<string>) | External(url: string)

  /** A parsed URL object, of which the page uses only the origin. */
  datatype Url = Url(href: string, origin: string)

  /** What `new URL(...)` throws on a string it cannot parse. */
  datatype Error = InvalidUrl(input: string)

  /** The document options: base URL, scripts and styles (each `undefined` or a
      list), and every other document or response option, passed on unchanged. */
  datatype PageOptions = PageOptions(
    base: Option<Url>,
    scripts: Option<seq<Asset>>,
    styles: Option<seq<Asset>>,
    rest: map<string, string>)

  /** The options of a page send: the caller's partial policy and the rest. */
  datatype SendWebPageOptions = SendWebPageOptions(csp: Option<CspConfig>, page: PageOptions)

  /** One call of the response writer: the rendered page, the options it gets
      and the policy it sends as the Content-Security-Policy header. */
  datatype HtmlWrite = HtmlWrite(html: string, options: PageOptions, csp: CspConfig)

  /** The code this module calls but does not contain: SHA-256 followed by
      base64 encoding of the digest, the origin of a parsed URL (`None` when the
      parser throws), the policy merge, and the document renderer. */
  datatype Platform = Platform(
    sha256Base64: string -> string,
    urlOrigin: string -> Option<string>,
    mergeCsp: seq<Option<CspConfig>> -> CspConfig,
    buildDocument: PageOptions -> string)

  /** The default policy: nothing may load, and insecure requests are upgraded. */
  const DefaultCsp: CspConfig := map[
    UpgradeInsecureRequests := Flag(true),
    DefaultSrc := List([NoneKeyword])]

  // ---------------------------------------------------------------------------
  // Asset classification

  /** The text of an inline asset: its fragments joined in order, no separator. */
  function Concat(fragments: seq<string>): string {
    if fragments == [] then [] else fragments[0] + Concat(fragments[1..])
  }

  /** Joining is a monoid homomorphism: feeding fragments in two batches
      absorbs the same text as feeding them all at once. */
  lemma {:induction false} ConcatAppend(a: seq<string>, b: seq<string>)
    ensures Concat(a + b) == Concat(a) + Concat(b)
  {
    if a == [] {
      assert a + b == b;
    } else {
      assert (a + b)[1..] == a[1..] + b;
      ConcatAppend(a[1..], b);
    }
  }

  /** The quoted hash expression that allows content whose SHA-256 digest, in
      base64, is `digest`. */
  function HashSource(digest: string): (r: string)
    ensures StartsWith(r, "'sha256-") && EndsWith(r, "'")
    ensures |r| == |digest| + 9 && r[8..|r| - 1] == digest
  {
    "'sha256-" + digest + "'"
  }

  /** Whether an external reference names an absolute http(s) URL, by the
      case-sensitive prefix test of `assetToCsp` in send-web-page.ts. */
  predicate IsHttpUrl(url: string) {
    StartsWith(url, "https:") || StartsWith(url, "http:")
  }

  /** The source expression that allows one asset: the hash of an inline
      asset's text, the origin of an http(s) URL, `'self'` for anything else.
      The only error is an http(s) URL the parser rejects. */
  function ClassifyAsset(p: Platform, asset: Asset): (r: Result<string, Error>)
    ensures r.Failure? <==> asset.External? && IsHttpUrl(asset.url) && p.urlOrigin(asset.url).None?
    ensures r.Failure? ==> r.error == InvalidUrl(asset.url)
    ensures r.Success? ==> || (asset.Inline? && StartsWith(r.value, "'sha256-"))
                           || (asset.External? && IsHttpUrl(asset.url) && p.urlOrigin(asset.url) == Some(r.value))
                           || (asset.External? && !IsHttpUrl(asset.url) && r.value == SelfKeyword)
  {
    match asset
    case Inline(fragments) => Success(HashSource(p.sha256Base64(Concat(fragments))))
    case External(url) =>
      if IsHttpUrl(url) then
        match p.urlOrigin(url)
        case Some(origin) => Success(origin)
        case None => Failure(InvalidUrl(url))
      else
        Success(SelfKeyword)
  }

  /** The incremental hash object of `createHash('sha256')`: its algorithm is
      fixed when it is created; it absorbs text in the order it is fed, and
      once digested it accepts neither more text nor a second digest. */
  class Sha256Hash {
    const sha256Base64: string -> string
    var absorbed: string
    var digested: bool

    constructor (sha256Base64: string -> string)
      ensures this.sha256Base64 == sha256Base64
      ensures absorbed == [] && !digested
    {
      this.sha256Base64 := sha256Base64;
      absorbed := [];
      digested := false;
    }

    method Update(data: string)
      requires !digested
      modifies this
      ensures absorbed == old(absorbed) + data && !digested
    {
      absorbed := absorbed + data;
    }

    method Digest() returns (digest: string)
      requires !digested
      modifies this
      ensures digest == sha256Base64(absorbed)
      ensures absorbed == old(absorbed) && digested
    {
      digest := sha256Base64(absorbed);
      digested := true;
    }
  }

  /** `assetToCsp` of send-web-page.ts as it runs: an inline asset's fragments
      are fed one at a time into a fresh hash object before it is digested. */
  method AssetToCsp(p: Platform, asset: Asset) returns (r: Result<string, Error>)
    ensures r == ClassifyAsset(p, asset)
  {
    match asset
    case Inline(fragments) =>
      var hash := new Sha256Hash(p.sha256Base64);
      for i := 0 to |fragments|
        invariant hash.sha256Base64 == p.sha256Base64 && !hash.digested
        invariant hash.absorbed == Concat(fragments[..i])
      {
        assert fragments[..i + 1] == fragments[..i] + [fragments[i]];
        ConcatAppend(fragments[..i], [fragments[i]]);
        hash.Update(fragments[i]);
      }
      assert fragments[..|fragments|] == fragments;
      var digest := hash.Digest();
      r := Success(HashSource(digest));
    case External(url) =>
      if StartsWith(url, "https:") || StartsWith(url, "http:") {
        var origin := p.urlOrigin(url);
        if origin.Some? {
          r := Success(origin.value);
        } else {
          r := Failure(InvalidUrl(url));
        }
      } else {
        r := Success(SelfKeyword);
      }
  }

  // ---------------------------------------------------------------------------
  // Properties of the classifier

  /** An inline asset is allowed by "'sha256-", its digest, and "'". */
  lemma InlineIsQuotedDigest(p: Platform, fragments: seq<string>)
    ensures var r := ClassifyAsset(p, Inline(fragments));
            && r.Success?
            && StartsWith(r.value, "'sha256-") && EndsWith(r.value, "'")
            && r.value[8..|r.value| - 1] == p.sha256Base64(Concat(fragments))
  {
  }

  /** When the digest is a base64 value, the inline classification is a
      hash-source of CSP3, read back as algorithm sha256 and that digest. */
  lemma InlineIsHashSource(p: Platform, fragments: seq<string>)
    requires IsBase64Value(p.sha256Base64(Concat(fragments)))
    ensures var r := ClassifyAsset(p, Inline(fragments));
            r.Success? && ParseHashSource(r.value) == Some(("sha256", p.sha256Base64(Concat(fragments))))
  {
    HashSourceRoundTrip(p.sha256Base64(Concat(fragments)));
  }

  /** HashSource and ParseHashSource are inverse on base64 digests. */
  lemma HashSourceRoundTrip(digest: string)
    requires IsBase64Value(digest)
    ensures ParseHashSource(HashSource(digest)) == Some(("sha256", digest))
  {
    var s := HashSource(digest);
    assert s[1..|s| - 1] == "sha256-" + digest;
    assert StartsWith("sha256-" + digest, "sha256-");
    assert ("sha256-" + digest)[7..] == digest;
  }

  /** A hash-source read back as sha256 and a digest is exactly the expression
      the classifier builds from that digest. */
  lemma HashSourceFromParse(s: string, digest: string)
    requires ParseHashSource(s) == Some(("sha256", digest))
    ensures s == HashSource(digest)
  {
    var inner := s[1..|s| - 1];
    assert StartsWith(inner, "sha256-");
    assert inner[..7] == "sha256-" && inner[7..] == digest;
    assert inner == "sha256-" + digest;
    assert s == [s[0]] + inner + [s[|s| - 1]];
  }

  /** Inline classification depends on the fragments only through their joined
      text: equal fragment sequences, or any split of the same text, classify
      alike. */
  lemma InlineDependsOnTextOnly(p: Platform, f1: seq<string>, f2: seq<string>)
    requires Concat(f1) == Concat(f2)
    ensures ClassifyAsset(p, Inline(f1)) == ClassifyAsset(p, Inline(f2))
  {
  }

  /** An http(s) URL classifies to its origin, and to the parser's error when it
      has none. */
  lemma HttpUrlIsOrigin(p: Platform, url: string)
    requires IsHttpUrl(url)
    ensures ClassifyAsset(p, External(url))
            == if p.urlOrigin(url).Some? then Success(p.urlOrigin(url).value) else Failure(InvalidUrl(url))
  {
  }

  /** Two http(s) URLs with the same origin, whatever their paths, are allowed
      by the same source expression. */
  lemma SameOriginSameSource(p: Platform, url1: string, url2: string)
    requires IsHttpUrl(url1) && IsHttpUrl(url2)
    requires p.urlOrigin(url1).Some? && p.urlOrigin(url1) == p.urlOrigin(url2)
    ensures ClassifyAsset(p, External(url1)) == ClassifyAsset(p, External(url2))
    ensures ClassifyAsset(p, External(url1)) == Success(p.urlOrigin(url1).value)
  {
  }

  /** A URL that starts with neither "https:" nor "http:" classifies to
      `'self'` without being parsed: the result is the same whatever the URL
      parser does. */
  lemma OtherUrlIsSelf(p: Platform, q: Platform, url: string)
    requires !StartsWith(url, "https:") && !StartsWith(url, "http:")
    ensures ClassifyAsset(p, External(url)) == ClassifyAsset(q, External(url)) == Success(SelfKeyword)
  {
  }

  // ---------------------------------------------------------------------------
  // The derived policy

  /** `assets.map(assetToCsp)`: every asset classified, in order; the first
      error stops the walk. */
  function ClassifyAll(p: Platform, assets: seq<Asset>): (r: Result<seq<string>, Error>)
    ensures r.Success? <==> forall i :: 0 <= i < |assets| ==> ClassifyAsset(p, assets[i]).Success?
    ensures r.Success? ==> |r.value| == |assets|
    ensures r.Success? ==> forall i :: 0 <= i < |assets| ==> ClassifyAsset(p, assets[i]) == Success(r.value[i])
    ensures r.Failure? ==> exists i :: && 0 <= i < |assets|
                                       && ClassifyAsset(p, assets[i]) == Failure(r.error)
                                       && forall j :: 0 <= j < i ==> ClassifyAsset(p, assets[j]).Success?
  {
    if assets == [] then Success([])
    else
      match ClassifyAsset(p, assets[0])
      case Failure(e) => Failure(e)
      case Success(first) =>
        match ClassifyAll(p, assets[1..])
        case Failure(e) =>
          assert forall i :: 0 <= i < |assets| - 1 ==> assets[1..][i] == assets[i + 1];
          Failure(e)
        case Success(rest) => Success([first] + rest)
  }

  /** Whether `v` is the directive value `assets?.map(assetToCsp)` gives:
      `undefined` for no list, else one source per asset, in the same order. */
  predicate ListsClassifications(p: Platform, assets: Option<seq<Asset>>, v: DirectiveValue) {
    match assets
    case None => v == Undefined
    case Some(xs) =>
      && v.List?
      && |v.sources| == |xs|
      && forall i :: 0 <= i < |xs| ==> ClassifyAsset(p, xs[i]) == Success(v.sources[i])
  }

  /** Whether every asset of an optional list classifies without error. */
  predicate AllClassify(p: Platform, assets: Option<seq<Asset>>) {
    assets.Some? ==> forall i :: 0 <= i < |assets.value| ==> ClassifyAsset(p, assets.value[i]).Success?
  }

  /** `assets?.map(assetToCsp)` as a directive value. */
  function ClassifyOptional(p: Platform, assets: Option<seq<Asset>>): (r: Result<DirectiveValue, Error>)
    ensures r.Success? <==> AllClassify(p, assets)
    ensures r.Success? ==> ListsClassifications(p, assets, r.value)
  {
    match assets
    case None => Success(Undefined)
    case Some(xs) =>
      var sources :- ClassifyAll(p, xs);
      Success(List(sources))
  }

  /** The derived partial policy: `base-uri` from the base URL, `script-src`
      and `style-src` from the scripts and styles; scripts are classified
      before styles, so a failing script's error is the one that propagates. */
  function DerivedCsp(p: Platform, page: PageOptions): (r: Result<CspConfig, Error>)
    ensures r.Success? <==> AllClassify(p, page.scripts) && AllClassify(p, page.styles)
    ensures r.Success? ==> r.value.Keys == {BaseUri, ScriptSrc, StyleSrc}
    ensures r.Success? ==> r.value[BaseUri] == if page.base.Some? then Single(page.base.value.origin) else Undefined
    ensures r.Success? ==> ListsClassifications(p, page.scripts, r.value[ScriptSrc])
    ensures r.Success? ==> ListsClassifications(p, page.styles, r.value[StyleSrc])
    ensures r.Failure? ==> if AllClassify(p, page.scripts)
                           then ClassifyOptional(p, page.styles) == Failure(r.error)
                           else ClassifyOptional(p, page.scripts) == Failure(r.error)
  {
    var baseUri := if page.base.Some? then Single(page.base.value.origin) else Undefined;
    var scriptSrc :- ClassifyOptional(p, page.scripts);
    var styleSrc :- ClassifyOptional(p, page.styles);
    Success(map[BaseUri := baseUri, ScriptSrc := scriptSrc, StyleSrc := styleSrc])
  }

  /** A page with one inline script, one external style and a base URL: the
      derived policy allows the script by its hash, the style by its origin and
      the base by its origin, and has no other directive. */
  lemma DerivedCspExample(p: Platform)
    requires p.urlOrigin("https://fonts.example/x.css") == Some("https://fonts.example")
    ensures DerivedCsp(p, PageOptions(
              Some(Url("https://app.example/", "https://app.example")),
              Some([Inline(["console.log(1)"])]),
              Some([External("https://fonts.example/x.css")]),
              map[]))
            == Success(map[
              BaseUri := Single("https://app.example"),
              ScriptSrc := List([HashSource(p.sha256Base64("console.log(1)"))]),
              StyleSrc := List(["https://fonts.example"])])
  {
    var css := "https://fonts.example/x.css";
    assert css[..6] == "https:";
    assert ClassifyAsset(p, External(css)) == Success("https://fonts.example");
    var styles := ClassifyAll(p, [External(css)]);
    assert styles.Success? && |styles.value| == 1;
    assert styles.value == [styles.value[0]];
    assert Concat(["console.log(1)"]) == "console.log(1)";
    var scripts := ClassifyAll(p, [Inline(["console.log(1)"])]);
    assert scripts.Success? && |scripts.value| == 1;
    assert scripts.value == [scripts.value[0]];
  }

  /** The default policy allows nothing: its only source list is `default-src`
      holding `'none'` alone, and its only flag upgrades insecure requests. */
  lemma DefaultCspAllowsNothing()
    ensures DefaultCsp.Keys == {UpgradeInsecureRequests, DefaultSrc}
    ensures DefaultCsp[UpgradeInsecureRequests] == Flag(true)
    ensures DefaultCsp[DefaultSrc] == List([NoneKeyword])
  {
  }

  // ---------------------------------------------------------------------------
  // Sending the page

  /** The write a page send makes: the document rendered from the options
      without the caller's policy, and the merge of the default policy, the
      caller's policy and the derived policy, in that order. */
  function WebPageWrite(p: Platform, o: SendWebPageOptions): (r: Result<HtmlWrite, Error>)
    ensures r.Success? <==> AllClassify(p, o.page.scripts) && AllClassify(p, o.page.styles)
    ensures r.Failure? ==> DerivedCsp(p, o.page) == Failure(r.error)
    ensures r.Success? ==> r.value.html == p.buildDocument(o.page) && r.value.options == o.page
    ensures r.Success? ==> exists derived :: && DerivedCsp(p, o.page) == Success(derived)
                                            && r.value.csp == p.mergeCsp([Some(DefaultCsp), o.csp, Some(derived)])
  {
    var derived :- DerivedCsp(p, o.page);
    var csp := p.mergeCsp([Some(DefaultCsp), o.csp, Some(derived)]);
    Success(HtmlWrite(p.buildDocument(o.page), o.page, csp))
  }

  /** The caller's policy reaches the writer only through the merge: two sends
      that differ only in it render the same document with the same options,
      and fail or succeed together. */
  lemma CallerCspOnlyMerged(p: Platform, o1: SendWebPageOptions, o2: SendWebPageOptions)
    requires o1.page == o2.page
    ensures WebPageWrite(p, o1).Success? == WebPageWrite(p, o2).Success?
    ensures WebPageWrite(p, o1).Success? ==>
              && WebPageWrite(p, o1).value.html == WebPageWrite(p, o2).value.html
              && WebPageWrite(p, o1).value.options == WebPageWrite(p, o2).value.options
  {
  }

  /** The response the page is written to: the writes made so far. */
  class ServerResponse {
    var written: seq<HtmlWrite>

    constructor ()
      ensures written == []
    {
      written := [];
    }

    /** The response writer: sends a document with its policy header. */
    method WriteHtml(html: string, options: PageOptions, csp: CspConfig)
      modifies this
      ensures written == old(written) + [HtmlWrite(html, options, csp)]
    {
      written := written + [HtmlWrite(html, options, csp)];
    }
  }

  /** Sends a page: on success exactly one write, the one WebPageWrite
      describes; when a URL fails to parse, the error and no write at all. */
  method SendWebPage(res: ServerResponse, p: Platform, o: SendWebPageOptions) returns (r: Result<(), Error>)
    modifies res
    ensures r.Success? <==> WebPageWrite(p, o).Success?
    ensures r.Success? ==> res.written == old(res.written) + [WebPageWrite(p, o).value]
    ensures r.Failure? ==> res.written == old(res.written) && WebPageWrite(p, o) == Failure(r.error)
  {
    var derived := DerivedCsp(p, o.page);
    if derived.Failure? {
      return Failure(derived.error);
    }
    var csp := p.mergeCsp([Some(DefaultCsp), o.csp, Some(derived.value)]);
    var html := p.buildDocument(o.page);
    res.WriteHtml(html, o.page, csp);
    r := Success(());
  }
}
