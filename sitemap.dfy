/** The sitemap (sitemap.ts): four static routes whose URLs are XML-escaped by replacing every
    ampersand with "&amp;". The modification dates are not modelled. */
module Sitemap {

  const Amp: string := "&amp;"

  /** The number of ampersands in `s`. */
  function AmpCount(s: string): nat {
    if s == [] then 0 else (if s[0] == '&' then 1 else 0) + AmpCount(s[1..])
  }

  /** `escapeXmlUrl`: every "&" becomes "&amp;", every other character is kept. Each
      ampersand adds four characters, and a string without one is returned unchanged. */
  function EscapeXmlUrl(s: string): (r: string)
    ensures |r| == |s| + 4 * AmpCount(s)
    ensures '&' !in s ==> r == s
    ensures s != [] && s[0] != '&' ==> r[0] == s[0]
  {
    if s == [] then []
    else if s[0] == '&' then Amp + EscapeXmlUrl(s[1..])
    else [s[0]] + EscapeXmlUrl(s[1..])
  }

  /** The reverse replacement, `replace(/&amp;/g, '&')`: scanning left to right, each
      "&amp;" becomes "&". */
  function UnescapeXmlUrl(t: string): string
    decreases |t|
  {
    if t == [] then []
    else if |t| >= 5 && t[..5] == Amp then "&" + UnescapeXmlUrl(t[5..])
    else [t[0]] + UnescapeXmlUrl(t[1..])
  }

  /** Unescaping an escaped URL gives the URL back, so escaping loses nothing. */
  lemma {:induction false} UnescapeEscape(s: string)
    ensures UnescapeXmlUrl(EscapeXmlUrl(s)) == s
  {
    if s != [] {
      var rest := EscapeXmlUrl(s[1..]);
      UnescapeEscape(s[1..]);
      if s[0] == '&' {
        var t := Amp + rest;
        assert t[..5] == Amp && t[5..] == rest;
        assert UnescapeXmlUrl(t) == "&" + UnescapeXmlUrl(rest);
      } else {
        var t := [s[0]] + rest;
        assert t[0] != '&' && t[1..] == rest;
        if |t| >= 5 {
          assert t[..5][0] == t[0] && Amp[0] == '&';
        }
      }
      assert s == [s[0]] + s[1..];
    }
  }

  /** Escaping works piece by piece: the escape of a concatenation is the concatenation of
      the escapes. */
  lemma {:induction false} EscapeConcat(a: string, b: string)
    ensures EscapeXmlUrl(a + b) == EscapeXmlUrl(a) + EscapeXmlUrl(b)
  {
    if a != [] {
      assert (a + b)[1..] == a[1..] + b;
      EscapeConcat(a[1..], b);
    } else {
      assert a + b == b;
    }
  }

  /** The deployment's host and root path, shared by the site URL and the logo URL. */
  const Host: string := "ai-agent-playground-demo.vercel.app/"
  /** "http://ai-agent-playground-demo.vercel.app/" */
  const BaseUrl: string := "http://" + Host
  /** "https://ai-agent-playground-demo.vercel.app/logo.png" */
  const BaseImage: string := "https://" + Host + "logo.png"

  /** Neither base URL contains an ampersand. */
  lemma BaseUrlsHaveNoAmpersand()
    ensures '&' !in BaseUrl && '&' !in BaseImage
  {
    forall i | 0 <= i < |Host|
      ensures Host[i] != '&'
    {
      assert Host[i] in Host;
    }
    assert '&' !in "http://" && '&' !in "https://" && '&' !in "logo.png";
  }

  datatype SitemapEntry = SitemapEntry(url: string, priority: int, images: seq<string>)

  /** One static route: the escaped URL, priority 1 and the escaped logo as its only image. */
  function Route(path: string): SitemapEntry {
    SitemapEntry(EscapeXmlUrl(BaseUrl + path), 1, [EscapeXmlUrl(BaseImage)])
  }

  /** `staticRoutes`: the home, settings, rest and webhook pages. */
  function StaticRoutes(): seq<SitemapEntry> {
    [Route(""), Route("settings"), Route("rest"), Route("webhook")]
  }

  /** The route table has four entries with priority 1 and the logo as their only image; no
      URL contains an ampersand, so escaping leaves them as written. */
  lemma RoutesShape()
    ensures var r := StaticRoutes();
            && |r| == 4
            && (forall i :: 0 <= i < 4 ==> r[i].priority == 1 && r[i].images == [BaseImage])
            && r[0].url == BaseUrl && r[1].url == BaseUrl + "settings"
            && r[2].url == BaseUrl + "rest" && r[3].url == BaseUrl + "webhook"
  {
    BaseUrlsHaveNoAmpersand();
    var paths := ["", "settings", "rest", "webhook"];
    forall i | 0 <= i < 4
      ensures '&' !in BaseUrl + paths[i]
    {
    }
    assert BaseUrl + "" == BaseUrl;
  }
}
