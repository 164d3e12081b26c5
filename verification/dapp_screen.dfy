/**
 * The DApp screen: an embedded browser page opened on a route parameter `url`.
 * Its component state is `currentUrl` (what the web view shows), `displayUrl`
 * (what the address bar shows) and `isLoading`. A finished page load is
 * recorded in the browser store; the store calls it makes are returned as
 * `BrowserStore.Action` values.
 */
module DAppScreen {
  import opened JsText
  import BrowserStore

  /** The address-bar text as submitted: "https://" is added unless it starts with "http". */
  function NormalizeUrl(input: string): (r: string)
    ensures r == [] <==> input == []
    ensures r != [] ==> StartsWith(r, "http")
    ensures StartsWith(input, "http") ==> r == input
    ensures input != [] && !StartsWith(input, "http") ==> r == "https://" + input
  {
    if input != [] && !StartsWith(input, "http") then "https://" + input else input
  }

  /** Normalising a normalised URL changes nothing. */
  lemma NormalizeUrlIdempotent(input: string)
    ensures NormalizeUrl(NormalizeUrl(input)) == NormalizeUrl(input)
  {
  }

  /**
   * The scheme test is a bare prefix test: a host name that itself begins with
   * "http" is taken to carry a scheme and is left as it is.
   */
  lemma HostStartingWithHttpKeptAsIs()
    ensures NormalizeUrl("httpbin.org") == "httpbin.org"
    ensures NormalizeUrl("example.org") == "https://example.org"
  {
    assert "example.org"[..4][0] == 'e';
  }

  /** A load is recorded unless the URL is empty or "about:blank". */
  predicate IsRecorded(loadedUrl: string)
  {
    loadedUrl != [] && loadedUrl != "about:blank"
  }

  /** The store calls a page load makes, in order. */
  function LoadCalls(loadedUrl: string, pageTitle: string, now: int): (calls: seq<BrowserStore.Action>)
    ensures !IsRecorded(loadedUrl) ==> calls == []
    ensures IsRecorded(loadedUrl) ==>
      |calls| == 2 && calls[0].AddToHistory? && calls[1] == BrowserStore.AddVisitedDapp(loadedUrl)
    ensures IsRecorded(loadedUrl) ==>
      var e := calls[0].entry;
      && e.url == loadedUrl
      && e.title == (if pageTitle == [] then loadedUrl else pageTitle)
      && e.favicon == []
      && e.timestamp == now
      && e.isDapp
  {
    if IsRecorded(loadedUrl) then
      [ BrowserStore.AddToHistory(BrowserStore.HistoryEntry(
          loadedUrl, if pageTitle == [] then loadedUrl else pageTitle, "", now, true)),
        BrowserStore.AddVisitedDapp(loadedUrl) ]
    else []
  }

  /**
   * What a page load does to the store: a recorded load adds exactly one
   * history entry and lists the URL among the visited DApps; any other load
   * leaves the store as it was.
   */
  lemma LoadEffect(s: BrowserStore.BrowserState, loadedUrl: string, pageTitle: string, now: int)
    ensures var t := BrowserStore.Run(s, LoadCalls(loadedUrl, pageTitle, now));
      && (IsRecorded(loadedUrl) ==>
            && |t.history| == |s.history| + 1
            && t.history[1..] == s.history
            && t.history[0].url == loadedUrl
            && t.visitedDapps == BrowserStore.Visit(s.visitedDapps, loadedUrl))
      && (!IsRecorded(loadedUrl) ==> t == s)
  {
    var calls := LoadCalls(loadedUrl, pageTitle, now);
    if IsRecorded(loadedUrl) {
      var s1 := BrowserStore.Step(s, calls[0]);
      var s2 := BrowserStore.Step(s1, calls[1]);
      assert calls[1..][1..] == [];
      assert BrowserStore.Run(s, calls) == BrowserStore.Run(s1, calls[1..]);
      assert BrowserStore.Run(s1, calls[1..]) == BrowserStore.Run(s2, calls[1..][1..]);
      assert s2.history == [calls[0].entry] + s.history;
    }
  }

  class Screen {
    /** The route parameter the screen was opened with. */
    const url: string
    var currentUrl: string
    var displayUrl: string
    var isLoading: bool

    /** Both URLs start at the route parameter; the first load is pending. */
    constructor (url: string)
      ensures this.url == url
      ensures currentUrl == url && displayUrl == url
      ensures isLoading
    {
      this.url := url;
      currentUrl := url;
      displayUrl := url;
      isLoading := true;
    }

    /** Editing the address bar changes `displayUrl` only. */
    method HandleUrlChange(text: string)
      modifies this
      ensures displayUrl == text
      ensures currentUrl == old(currentUrl) && isLoading == old(isLoading)
    {
      displayUrl := text;
    }

    /** Submitting navigates to the normalised address; an empty one is ignored. */
    method HandleUrlSubmit()
      modifies this
      ensures old(displayUrl) == [] ==> currentUrl == old(currentUrl)
      ensures old(displayUrl) != [] ==> currentUrl == NormalizeUrl(old(displayUrl))
      ensures StartsWith(old(displayUrl), "http") ==> currentUrl == old(displayUrl)
      ensures displayUrl == old(displayUrl) && isLoading == old(isLoading)
    {
      var formattedUrl := displayUrl;
      if formattedUrl != [] && !StartsWith(formattedUrl, "http") {
        formattedUrl := "https://" + formattedUrl;
      }
      if formattedUrl != [] {
        currentUrl := formattedUrl;
      }
    }

    /**
     * A finished load always shows the loaded URL and clears `isLoading`, and
     * issues the store calls of LoadCalls.
     */
    method HandleLoad(loadedUrl: string, pageTitle: string, now: int)
      returns (calls: seq<BrowserStore.Action>)
      modifies this
      ensures displayUrl == loadedUrl && !isLoading
      ensures currentUrl == old(currentUrl)
      ensures calls == LoadCalls(loadedUrl, pageTitle, now)
    {
      displayUrl := loadedUrl;
      isLoading := false;
      calls := [];
      if loadedUrl != [] && loadedUrl != "about:blank" {
        var title := if pageTitle != [] then pageTitle else loadedUrl;
        calls := calls + [BrowserStore.AddToHistory(BrowserStore.HistoryEntry(loadedUrl, title, "", now, true))];
        calls := calls + [BrowserStore.AddVisitedDapp(loadedUrl)];
      }
    }

    method HandleLoadStart()
      modifies this
      ensures isLoading
      ensures currentUrl == old(currentUrl) && displayUrl == old(displayUrl)
    {
      isLoading := true;
    }

    method HandleLoadEnd()
      modifies this
      ensures !isLoading
      ensures currentUrl == old(currentUrl) && displayUrl == old(displayUrl)
    {
      isLoading := false;
    }

    /** Home goes back to the route parameter, the screen's initial address. */
    method HandleHome()
      modifies this
      ensures currentUrl == url
      ensures displayUrl == old(displayUrl) && isLoading == old(isLoading)
    {
      currentUrl := url;
    }
  }
}
