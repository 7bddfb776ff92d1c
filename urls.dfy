/**
 * Locator classification and data URLs: the prefix branches of
 * `resolveUrl` and `isDataUrl`, `makeDataUrl`, `parseDataUrlContent`
 * (src/util.ts lines 28-70). Data URLs follow section 3 of RFC 2397:
 * `data:` [mediatype] [`;base64`] `,` data.
 */
module Urls {
  import opened Wrappers
  import Js

  predicate IsAsciiLetter(c: char) {
    'a' <= c <= 'z' || 'A' <= c <= 'Z'
  }

  /** Length of the run of ASCII letters that starts `s`. */
  function LetterRun(s: string): (n: nat)
    ensures n <= |s|
    ensures forall i :: 0 <= i < n ==> IsAsciiLetter(s[i])
    ensures n == |s| || !IsAsciiLetter(s[n])
  {
    if s != "" && IsAsciiLetter(s[0]) then 1 + LetterRun(s[1..]) else 0
  }

  /** `url` matches `/^[a-z]+:/i`: one or more ASCII letters, then a colon. */
  ghost predicate HasScheme(url: string) {
    exists k :: 0 < k < |url| && url[k] == ':' && forall i :: 0 <= i < k ==> IsAsciiLetter(url[i])
  }

  /**
   * The classification `resolveUrl` makes before it falls back to the
   * host's document: `Some` is the returned locator, `None` is the
   * fallback (a relative locator the host resolves against `baseUrl`).
   * `protocol` is `window.location.protocol`.
   */
  function ResolveUrl(url: string, protocol: string): (r: Option<string>)
    ensures HasScheme(url) ==> r == Some(url)
    ensures !HasScheme(url) && "//" <= url ==> r == Some(protocol + url)
    ensures !HasScheme(url) && !("//" <= url) ==> r == None
  {
    var n := LetterRun(url);
    assert HasScheme(url) <==> 0 < n < |url| && url[n] == ':' by {
      if 0 < n < |url| && url[n] == ':' {
        assert url[n] == ':' && forall i :: 0 <= i < n ==> IsAsciiLetter(url[i]);
      }
      if HasScheme(url) {
        var k :| 0 < k < |url| && url[k] == ':' && forall i :: 0 <= i < k ==> IsAsciiLetter(url[i]);
        assert !IsAsciiLetter(url[k]);
        assert n == k;
      }
    }
    if 0 < n && "://" <= url[n..] then Some(url)             // /^[a-z]+:\/\//i
    else if "//" <= url then Some(protocol + url)           // /^\/\//
    else if 0 < n < |url| && url[n] == ':' then Some(url)  // /^[a-z]+:/i
    else None
  }

  /** A scheme followed by a colon, with or without `//` after it, is kept unchanged. */
  lemma ResolveUrlKeepsScheme(scheme: string, rest: string, protocol: string)
    requires scheme != "" && forall i :: 0 <= i < |scheme| ==> IsAsciiLetter(scheme[i])
    ensures ResolveUrl(scheme + ":" + rest, protocol) == Some(scheme + ":" + rest)
  {
    var url := scheme + ":" + rest;
    assert url[|scheme|] == ':' && forall i :: 0 <= i < |scheme| ==> IsAsciiLetter(url[i]);
  }

  /**
   * When the page's protocol has the usual shape (`https:`), a resolved
   * locator is resolved again to itself.
   */
  lemma ResolveUrlIdempotent(url: string, protocol: string)
    requires |protocol| >= 2 && protocol[|protocol| - 1] == ':'
    requires forall i :: 0 <= i < |protocol| - 1 ==> IsAsciiLetter(protocol[i])
    requires ResolveUrl(url, protocol).Some?
    ensures ResolveUrl(ResolveUrl(url, protocol).value, protocol) == ResolveUrl(url, protocol)
  {
    if !HasScheme(url) {
      ResolveUrlKeepsScheme(protocol[..|protocol| - 1], url, protocol);
      assert protocol[..|protocol| - 1] + ":" + url == protocol + url;
    }
  }

  /**
   * `isDataUrl`: `url.search(/^(data:)/) !== -1`. The pattern is anchored
   * and has no `i` flag: the five characters `data:`, in lower case, at
   * the very start.
   */
  function IsDataUrl(url: string): (r: bool)
    ensures r <==> |url| >= 5 && url[0] == 'd' && url[1] == 'a' && url[2] == 't' && url[3] == 'a' && url[4] == ':'
  {
    "data:" <= url
  }

  /** The test is case-sensitive and anchored at the start. */
  lemma IsDataUrlAnchored(rest: string)
    ensures IsDataUrl("data:" + rest)
    ensures !IsDataUrl("DATA:" + rest) && !IsDataUrl("Data:" + rest)
    ensures !IsDataUrl(" data:" + rest) && !IsDataUrl("url(data:" + rest)
  {
    assert ("data:" + rest)[..5] == "data:";
    assert ("DATA:" + rest)[0] == 'D';
    assert ("Data:" + rest)[0] == 'D';
    assert (" data:" + rest)[0] == ' ';
    assert ("url(data:" + rest)[0] == 'u';
  }

  /**
   * `makeDataUrl`: a data URL whose media type is `mimeType`, marked
   * `;base64,`, with `content` as its data.
   */
  function MakeDataUrl(content: string, mimeType: string): (url: string)
    ensures IsDataUrl(url)
    ensures |url| == |mimeType| + |content| + 13
    ensures url[5..5 + |mimeType|] == mimeType
    ensures url[5 + |mimeType|..|url| - |content|] == ";base64,"
    ensures url[|url| - |content|..] == content
  {
    var url := "data:" + mimeType + ";base64," + content;
    assert url == "data:" + (mimeType + (";base64," + content));
    url
  }

  /**
   * `parseDataUrlContent`: `dataURL.split(/,/)[1]`, the text between the
   * first comma and the next one; `None` is `undefined`, when there is no comma.
   */
  function ParseDataUrlContent(dataUrl: string): (r: Option<string>)
    ensures r.None? <==> ',' !in dataUrl
    ensures r.Some? ==> ',' !in r.value
  {
    var parts := Js.Split(dataUrl, ',');
    if |parts| > 1 then
      assert dataUrl == parts[0] + [','] + Js.Join(parts[1..], ',');
      assert dataUrl[|parts[0]|] == ',';
      Some(parts[1])
    else
      None
  }

  /** The content parsed out of any text is what follows its first comma, up to the next. */
  lemma ParseAfterFirstComma(head: string, content: string)
    requires ',' !in head
    ensures ParseDataUrlContent(head + [','] + content) == Some(Js.Split(content, ',')[0])
  {
    Js.SplitAtFirst(head, content, ',');
  }

  lemma HeadHasNoComma(mimeType: string)
    requires ',' !in mimeType
    ensures ',' !in "data:" + mimeType + ";base64"
  {
  }

  /**
   * Parsing a built data URL gives back its content up to the content's
   * first comma.
   */
  lemma DataUrlContentPrefix(content: string, mimeType: string)
    requires ',' !in mimeType
    ensures ParseDataUrlContent(MakeDataUrl(content, mimeType)) == Some(Js.Split(content, ',')[0])
  {
    var head := "data:" + mimeType + ";base64";
    assert MakeDataUrl(content, mimeType) == head + [','] + content;
    HeadHasNoComma(mimeType);
    ParseAfterFirstComma(head, content);
  }

  /** Content without a comma comes back whole from a data URL built around it. */
  lemma DataUrlRoundTrip(content: string, mimeType: string)
    requires ',' !in mimeType && ',' !in content
    ensures ParseDataUrlContent(MakeDataUrl(content, mimeType)) == Some(content)
  {
    DataUrlContentPrefix(content, mimeType);
    Js.SplitWithout(content, ',');
  }
}
