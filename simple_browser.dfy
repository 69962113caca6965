/**
 * The embedded browser pane (src/components/SimpleBrowser.tsx). The address shown is derived
 * from the store's URL: a site-relative path is shown under the local development origin.
 * The pane keeps its own typed address, a loading flag and a counter that forces the frame
 * to reload.
 */
module SimpleBrowser {
  import opened Text
  import opened EditorStore

  const LocalOrigin: string := "http://localhost:3000"
  const HomeUrl: string := "/portfolio"

  /** `displayUrl`: a URL starting with `/` gets the local origin in front of it; any other
      URL is shown as it is. Either way the stored URL is what the shown one ends with. */
  function DisplayUrl(url: string): (r: string)
    ensures StartsWith(url, "/") ==> r == LocalOrigin + url
    ensures !StartsWith(url, "/") ==> r == url
    ensures |url| <= |r| && r[|r| - |url|..] == url
  {
    if StartsWith(url, "/") then LocalOrigin + url else url
  }

  /** A shown address never starts with `/`, so showing it again changes nothing. */
  lemma DisplayIdempotent(url: string)
    ensures DisplayUrl(DisplayUrl(url)) == DisplayUrl(url)
  {
    if StartsWith(url, "/") {
      assert DisplayUrl(url)[0] == 'h';
      FirstCharMismatch(DisplayUrl(url), "/");
    }
  }

  /** The normalisation is not one-to-one: a path and its full local address look the same. */
  lemma DisplayMergesLocalAddresses(path: string)
    requires StartsWith(path, "/")
    ensures DisplayUrl(path) == DisplayUrl(LocalOrigin + path)
  {
    assert (LocalOrigin + path)[0] == 'h';
    FirstCharMismatch(LocalOrigin + path, "/");
  }

  /** The pane's own state. */
  class BrowserView {
    var inputUrl: string
    var isLoading: bool
    var iframeKey: nat

    /** The typed address starts as the store's URL at the moment the pane mounts. */
    constructor (store: EditorState)
      ensures inputUrl == store.simpleBrowserUrl && !isLoading && iframeKey == 0
    {
      inputUrl := store.simpleBrowserUrl;
      isLoading := false;
      iframeKey := 0;
    }

    /** What the address box shows: derived from the store, not from what was typed. */
    function ShownAddress(store: EditorState): (r: string)
      reads store
      ensures |store.simpleBrowserUrl| <= |r| && r[|r| - |store.simpleBrowserUrl|..] == store.simpleBrowserUrl
      ensures !StartsWith(store.simpleBrowserUrl, "/") ==> r == store.simpleBrowserUrl
    {
      DisplayUrl(store.simpleBrowserUrl)
    }

    /** Typing records the text as the address to go to; the box keeps showing the store's. */
    method Type(value: string)
      modifies this`inputUrl
      ensures inputUrl == value
    {
      inputUrl := value;
    }

    /** `handleNavigate`: start loading and send the typed address to the store. */
    method Navigate(store: EditorState)
      modifies this`isLoading, store`simpleBrowserOpen, store`simpleBrowserUrl
      ensures isLoading && store.simpleBrowserOpen && store.simpleBrowserUrl == inputUrl
    {
      isLoading := true;
      store.OpenSimpleBrowser(inputUrl);
    }

    /** `handleRefresh`: start loading and bump the frame key by one. */
    method Refresh()
      modifies this`isLoading, this`iframeKey
      ensures isLoading && iframeKey == old(iframeKey) + 1
    {
      isLoading := true;
      iframeKey := iframeKey + 1;
    }

    /** The timer that ends the loading indicator. */
    method LoadingDone()
      modifies this`isLoading
      ensures !isLoading
    {
      isLoading := false;
    }

    /** The home button opens the portfolio page, leaving the typed address alone. */
    method Home(store: EditorState)
      modifies store`simpleBrowserOpen, store`simpleBrowserUrl
      ensures store.simpleBrowserOpen && store.simpleBrowserUrl == HomeUrl
      ensures ShownAddress(store) == LocalOrigin + HomeUrl
    {
      store.OpenSimpleBrowser(HomeUrl);
    }
  }
}
