# Content-Security-Policy derivation for OAuth provider web pages

This project models, in Dafny, the page-sending step of the atproto OAuth
provider (`packages/oauth/oauth-provider/src/output/send-web-page.ts`).
Before a server-rendered page is written, each of its scripts and styles is
classified into the Content-Security-Policy source expression that allows it:

- an inline asset becomes `'sha256-<base64 digest>'` over its fragments, fed in order;
- an external reference whose URL begins with `https:` or `http:` becomes that URL's origin;
- anything else becomes `'self'`.

The classifications form a derived partial policy (`base-uri`, `script-src`,
`style-src`). The fixed default policy, the caller's policy and the derived
policy are merged in that order. The merged policy, not the caller's, goes to
the response writer, together with the document rendered from the options
without the caller's policy.

Files:

- `wrappers.dfy`: `Option` (JavaScript `undefined`) and `Result` (a thrown error).
- `csp.dfy`: policy values and directive names. It also holds the hash-source
  grammar of section 2.3.1 of W3C Content Security Policy Level 3 as a parser,
  `ParseHashSource`.
- `send_web_page.dfy`: the classifier, as a method with a loop over a hash
  object (`AssetToCsp`) and as the function that specifies it
  (`ClassifyAsset`). It also holds the derived policy, the default policy,
  the write a page send makes, and the send itself over a response object.

The code this file calls but does not contain is passed in as a `Platform`
value of total functions: SHA-256 with base64 encoding, the origin of a
parsed URL (`None` where the URL parser throws), the policy merge, and the
document renderer. Nothing about them is assumed except that they are
functions. The hash function is given the joined text of the fragments, in
order; the model treats feeding the fragments one by one as feeding their
joined text (see "## Left out" for where the platform's per-fragment encoding
makes the two differ).

## Model

| member | source | states |
|---|---|---|
| `WebPage.ClassifyAsset` | packages/oauth/oauth-provider/src/output/send-web-page.ts:38-53 | Fails exactly when the asset is an external http(s) URL the parser rejects, with that URL's error. Otherwise the result is a `'sha256-` expression for an inline asset, the parsed origin for an http(s) URL, or `'self'` for any other URL |
| `WebPage.AssetToCsp` | packages/oauth/oauth-provider/src/output/send-web-page.ts:38-53 | Feeding the fragments one by one into a fresh hash object and digesting it gives exactly `ClassifyAsset`; the external branches agree with it too |
| `WebPage.Sha256Hash.constructor` | packages/oauth/oauth-provider/src/output/send-web-page.ts:41 | A fresh hash object has its algorithm fixed, has absorbed nothing and is not yet digested |
| `WebPage.Sha256Hash.Update` | packages/oauth/oauth-provider/src/output/send-web-page.ts:42 | Allowed only before the digest; absorbed text grows by exactly the fragment, appended at the end |
| `WebPage.Sha256Hash.Digest` | packages/oauth/oauth-provider/src/output/send-web-page.ts:43 | Allowed once, before any other digest; the digest is the object's SHA-256/base64 of everything absorbed, in order, and the object is then finished |
| `WebPage.ConcatAppend` | packages/oauth/oauth-provider/src/output/send-web-page.ts:42 | Joining two fragment sequences gives the join of the first followed by the join of the second, so fragment-by-fragment hashing digests the whole text |
| `WebPage.HashSource` | packages/oauth/oauth-provider/src/output/send-web-page.ts:43 | The expression starts with `'sha256-`, ends with `'`, and has exactly the digest between them |
| `WebPage.InlineIsQuotedDigest` | packages/oauth/oauth-provider/src/output/send-web-page.ts:39-43 | Every inline asset classifies successfully, to `'sha256-`, then the digest of its joined fragments, then `'` |
| `WebPage.InlineIsHashSource` | packages/oauth/oauth-provider/src/output/send-web-page.ts:41-43 | When the digest is a base64 value, the classification is a CSP3 hash-source that reads back as algorithm `sha256` with that digest |
| `WebPage.HashSourceRoundTrip` | packages/oauth/oauth-provider/src/output/send-web-page.ts:43 | Reading back a built hash expression gives `sha256` and the base64 digest it was built from |
| `WebPage.HashSourceFromParse` | packages/oauth/oauth-provider/src/output/send-web-page.ts:43 | Any string that reads back as `sha256` with a digest is exactly the expression built from that digest |
| `WebPage.InlineDependsOnTextOnly` | packages/oauth/oauth-provider/src/output/send-web-page.ts:41-43 | Two inline assets whose fragments join to the same text classify identically, so identical fragment sequences give identical expressions (re-splittings only as far as the per-fragment encoding allows; see "## Left out") |
| `WebPage.HttpUrlIsOrigin` | packages/oauth/oauth-provider/src/output/send-web-page.ts:46-47 | A URL starting with `https:` or `http:` classifies to its parsed origin, or to the parser's error if it has none |
| `WebPage.SameOriginSameSource` | packages/oauth/oauth-provider/src/output/send-web-page.ts:46-47 | Two http(s) URLs with the same origin, whatever their paths, classify to the same expression: that origin |
| `WebPage.OtherUrlIsSelf` | packages/oauth/oauth-provider/src/output/send-web-page.ts:46-51 | A URL starting with neither prefix classifies to `'self'`, the same under every URL parser, so it is never parsed |
| `WebPage.ClassifyAll` | packages/oauth/oauth-provider/src/output/send-web-page.ts:30-31 | Succeeds iff every asset classifies. On success the list has the same length and order as the assets, with element i the classification of asset i. On failure the error is that of the first failing asset |
| `WebPage.ClassifyOptional` | packages/oauth/oauth-provider/src/output/send-web-page.ts:30-31 | An absent asset list gives `undefined`; a present one gives the in-order list of classifications, and succeeds iff every asset classifies |
| `WebPage.DerivedCsp` | packages/oauth/oauth-provider/src/output/send-web-page.ts:28-32 | Keys are exactly `base-uri`, `script-src` and `style-src`. `base-uri` is the base origin, or `undefined` without a base. `script-src` and `style-src` are `undefined` without the list, else its in-order classification. A failing script's error wins over a failing style's |
| `WebPage.DerivedCspExample` | packages/oauth/oauth-provider/src/output/send-web-page.ts:28-32 | One inline script, one external style and a base URL give `script-src` with the script's hash, `style-src` with the style's origin, and `base-uri` with the base's origin |
| `WebPage.DefaultCspAllowsNothing` | packages/oauth/oauth-provider/src/output/send-web-page.ts:12-15 | The default policy has exactly two directives: `upgrade-insecure-requests` set to true, and `default-src` holding only `'none'` |
| `WebPage.WebPageWrite` | packages/oauth/oauth-provider/src/output/send-web-page.ts:19-36 | Succeeds iff all scripts and styles classify, else fails with the derived policy's error. On success the document is rendered from the options without the caller's policy. The writer gets those options and the merge of [default, caller's policy, derived policy], in that order |
| `WebPage.CallerCspOnlyMerged` | packages/oauth/oauth-provider/src/output/send-web-page.ts:21-35 | Two sends that differ only in the caller's policy succeed or fail together, render the same document and pass the writer the same options |
| `WebPage.ServerResponse.WriteHtml` | packages/oauth/oauth-provider/src/output/send-web-page.ts:35 | One writer call appends exactly one write: document, options and policy |
| `WebPage.SendWebPage` | packages/oauth/oauth-provider/src/output/send-web-page.ts:19-36 | On success the response receives exactly the one write `WebPageWrite` describes. When a URL fails to parse, the error propagates and nothing is written |

## Left out

- The internals of `mergeCsp` (union, deduplication, flag handling) live in `../lib/csp/index.js`. That file is not part of this model, so the merge is an opaque function of its ordered argument list.
- SHA-256 and base64 (`node:crypto`) are an opaque function of the joined text of the fragments. Collision resistance cannot be stated of it, so "content differing in one character hashes differently" is not proved.
- ClassifyAsset: model strings are sequences of Unicode scalar values, so lone UTF-16 surrogates are not modelled. The platform UTF-8-encodes each fragment on its own and replaces a lone surrogate by U+FFFD, so a surrogate pair split across two fragments is hashed differently from its joined text; the model hashes the joined text in both cases.
- AssetToCsp: the same limit as ClassifyAsset; the loop absorbs each fragment as scalar values, not as its separate UTF-8 encoding.
- InlineDependsOnTextOnly: holds in the source for identical fragment sequences and for splits between whole code points, not for a split inside a surrogate pair, which the model cannot express.
- `new URL(url).origin` is an opaque function that returns `None` where the platform parser throws. The model does not say which strings parse or what an origin looks like.
- `buildDocument(...).toString()` is an opaque, total function of the document options: an error it throws after classification succeeded (which rejects the send with nothing written) is not modelled. `writeHtml` is modelled only as recording one write on the response object; HTTP transport, headers, serialization of the policy and transport errors are not modelled.
- The `async`/`Promise` plumbing of `sendWebPage` is left out. It only sequences the steps, and `SendWebPage` runs them in the same order.
- The document and response options other than `base`, `scripts`, `styles` and `csp` are one opaque map, passed through unchanged.
- The `as` type casts on lines 29 and 47 have no runtime effect and are not modelled.
- `ParseHashSource` matches the algorithm names in lower case only. The classifier only produces lower case.

## Notes on the source

- The prefix test on line 46 is case-sensitive, and any URL without an `https:` or `http:` prefix is treated as same-origin. So `HTTPS://cdn.example/a.js`, `data:` and `blob:` URLs are all allowed as `'self'`, not by their origin. The model keeps this behaviour exactly (`OtherUrlIsSelf`).
- Each inline fragment is hashed as its own UTF-8 encoding, while the page carries the joined text. When a surrogate pair is split across two fragments, the hash is taken over two U+FFFD replacement characters, and the expression does not allow the rendered content.
- A URL with an http(s) prefix that the platform parser rejects makes the whole send fail before anything is rendered or written (`SendWebPage`).
