/** The tracking-link form of the statistics dashboard
    (static/js/statistics.js, the click handler of the generate-url button):
    it builds the link from the page origin, the custom route and the file
    extension, refuses a blank redirect URL, shows the link and posts it with
    the trimmed redirect URL to /generate-link. */
module LinkGenerator {
  import opened JsString

  /** The route used when the custom route field is empty. */
  const DefaultRoute := "/readme"

  const MissingRedirectAlert := "Please provide a Redirect URL."

  /** `customRoute || "/readme"`. */
  function RouteOrDefault(route: string): (r: string)
    ensures r != []
    ensures route != [] ==> r == route
    ensures route == [] ==> r == DefaultRoute
  {
    if route != "" then route else DefaultRoute
  }

  predicate StartsWithSlash(s: string) {
    |s| > 0 && s[0] == '/'
  }

  /** The route with a leading slash put in front when it has none. */
  function FormatRoute(route: string): (r: string)
    ensures StartsWithSlash(r)
    ensures r == route || r == "/" + route
  {
    if StartsWithSlash(route) then route else "/" + route
  }

  /** Formatting keeps a route that already starts with a slash, and only
      such a route; formatting twice is formatting once. */
  lemma FormatRouteFixedPoints(route: string)
    ensures FormatRoute(route) == route <==> StartsWithSlash(route)
    ensures FormatRoute(FormatRoute(route)) == FormatRoute(route)
  {
    if FormatRoute(route) == route {
      assert StartsWithSlash(route);
    }
  }

  /** The link the handler builds: origin, formatted route, then the
      extension when there is one. */
  function BuildLink(origin: string, route: string, extension: string): (link: string)
  {
    var customUrl := origin + FormatRoute(RouteOrDefault(route));
    if extension != "" then customUrl + extension else customUrl
  }

  /** The link is the origin, a slash, the route without its leading slash,
      and the extension, in that order and with nothing else. */
  lemma BuildLinkShape(origin: string, route: string, extension: string)
    ensures var r := RouteOrDefault(route);
            var link := BuildLink(origin, route, extension);
            link == origin + "/" + (if StartsWithSlash(r) then r[1..] else r) + extension
  {
    var r := RouteOrDefault(route);
    if StartsWithSlash(r) {
      assert r == "/" + r[1..];
    }
    if extension == "" {
      assert origin + FormatRoute(r) + "" == origin + FormatRoute(r);
    }
  }

  /** An empty route means /readme. */
  lemma DefaultRouteLink(origin: string, extension: string)
    ensures BuildLink(origin, "", extension) == origin + "/readme" + extension
  {
    assert origin + "/readme" + "" == origin + "/readme";
  }

  lemma LinkExamples()
    ensures BuildLink("https://h", "x", ".html") == "https://h/x.html"
    ensures BuildLink("https://h", "/docs", "") == "https://h/docs"
  {
    BuildLinkShape("https://h", "x", ".html");
    BuildLinkShape("https://h", "/docs", "");
  }

  /** Typing a route with or without its leading slash gives the same link
      (a second slash typed in front is kept, though). */
  lemma LeadingSlashOptional(origin: string, route: string, extension: string)
    requires route != "" && !StartsWithSlash(route)
    ensures BuildLink(origin, route, extension) == BuildLink(origin, "/" + route, extension)
  {
  }

  /** The outcome of one click. */
  datatype ClickOutcome =
    | MissingRedirect
    | Generated(link: string, redirectUrl: string)

  /** The handler's decision: nothing but an alert when the trimmed redirect
      URL is empty, otherwise the link and the trimmed redirect URL. */
  function GenerateClick(origin: string, route: string, extension: string, redirect: string): (o: ClickOutcome)
  {
    var redirectUrl := Trim(redirect);
    if redirectUrl == "" then MissingRedirect
    else Generated(BuildLink(origin, route, extension), redirectUrl)
  }

  /** The click is refused exactly when the redirect field is blank; an
      accepted click posts a redirect URL with no white space at its ends,
      and white space around what was typed makes no difference. */
  lemma GenerateClickValidation(origin: string, route: string, extension: string, redirect: string)
    ensures GenerateClick(origin, route, extension, redirect).MissingRedirect? <==> AllWhiteSpace(redirect)
    ensures GenerateClick(origin, route, extension, redirect).Generated? ==>
              IsTrimmed(GenerateClick(origin, route, extension, redirect).redirectUrl) &&
              GenerateClick(origin, route, extension, redirect).redirectUrl != ""
    ensures forall a, b :: AllWhiteSpace(a) && AllWhiteSpace(b) ==>
              GenerateClick(origin, route, extension, a + Trim(redirect) + b) ==
              GenerateClick(origin, route, extension, redirect)
  {
    TrimEmptyIff(redirect);
    TrimIsTrimmed(redirect);
    forall a, b | AllWhiteSpace(a) && AllWhiteSpace(b)
      ensures Trim(a + Trim(redirect) + b) == Trim(redirect)
    {
      TrimPadded(a, Trim(redirect), b);
    }
  }

  /** The body of the POST to /generate-link. */
  datatype LinkRequest = LinkRequest(generatedLink: string, redirectUrl: string)

  /** The parts of the page the handler touches: the alerts shown, the text
      of url-text, whether the generated-url container is shown, and the
      requests sent. */
  class LinkForm {
    var alerts: seq<string>
    var urlText: string
    var urlShown: bool
    var requests: seq<LinkRequest>

    constructor ()
      ensures alerts == [] && urlText == "" && !urlShown && requests == []
    {
      alerts := [];
      urlText := "";
      urlShown := false;
      requests := [];
    }

    /** `document.getElementById('generate-url').onclick`. */
    method OnGenerateClick(origin: string, route: string, extension: string, redirect: string)
      modifies this
      ensures var o := GenerateClick(origin, route, extension, redirect);
              if o.MissingRedirect? then
                alerts == old(alerts) + [MissingRedirectAlert] && urlText == old(urlText) &&
                urlShown == old(urlShown) && requests == old(requests)
              else
                alerts == old(alerts) && urlText == o.link && urlShown &&
                requests == old(requests) + [LinkRequest(o.link, o.redirectUrl)]
    {
      var customRoute := RouteOrDefault(route);
      var redirectUrl := Trim(redirect);
      if redirectUrl == "" {
        alerts := alerts + [MissingRedirectAlert];
        return;
      }
      var formattedRoute := FormatRoute(customRoute);
      var customUrl := origin + formattedRoute;
      if extension != "" {
        customUrl := customUrl + extension;
      }
      urlText := customUrl;
      urlShown := true;
      requests := requests + [LinkRequest(customUrl, redirectUrl)];
    }
  }
}
