/**
  The permission-resolution algorithm of AppSandboxFileAccess, as functions
  of the bookmark store's contents. The class FileAccess.AppSandboxFileAccess
  runs it step by step and is proved equal to these functions; the lemmas
  here state what the algorithm promises.

  Everything the algorithm asks of the operating system is a field of
  `Platform`: a total function that answers the same question the same way.
*/
module Resolution {
  import opened Options
  import opened Paths
  import opened Persist

  /** What `URL(resolvingBookmarkData:options:relativeTo:bookmarkDataIsStale:)` yields. */
  datatype Resolved = Resolved(url: Option<Path>, isStale: bool)

  datatype Platform = Platform(
    /** `URL(fileURLWithPath:)` */
    fileURL: string -> Path,
    /** `standardizedFileURL.resolvingSymlinksInPath()` */
    standardise: Path -> Path,
    /** `bookmarkData(options: .withSecurityScope, ...)`; None when it throws */
    mint: Path -> Option<Token>,
    /** resolving bookmark data back into a URL, with the staleness flag */
    resolve: Token -> Resolved,
    /** `FileManager.default.fileExists(atPath:)` */
    fileExists: Path -> bool,
    /** the open panel: start directory and the requested URL its delegate was made for; None on cancel */
    choose: (Path, Path) -> Option<Path>,
    /** `startAccessingSecurityScopedResource()` */
    startAccessing: Path -> bool)

  /** The open panel only lets the user confirm a URL its delegate enables. */
  ghost predicate ChooserHonoursDelegate(env: Platform) {
    forall start, requested ::
      env.choose(start, requested).Some? ==> IsAncestorOrSelf(env.choose(start, requested).value, requested)
  }

  /** The arguments a block of type `(URL?, Data?) -> Void` receives. */
  datatype Grant = Grant(url: Path, bookmark: Option<Token>)

  /** A returned URL and bookmark data, with the store's contents afterwards. */
  datatype Reply = Reply(url: Option<Path>, bookmark: Option<Token>, defaults: Defaults)

  /** Minted bookmark data (None when minting failed), with the store's contents afterwards. */
  datatype Minted = Minted(bookmark: Option<Token>, defaults: Defaults)

  /** The result of `requestPermissions`, the call its block received (if any), and the store afterwards. */
  datatype Requested = Requested(granted: bool, call: Option<Grant>, defaults: Defaults)

  /** What happens around the caller's block in `accessFileURL`. */
  datatype AccessEvent = StartedAccessing(url: Path) | RanBlock | StoppedAccessing(url: Path)

  datatype Accessed = Accessed(success: bool, events: seq<AccessEvent>, defaults: Defaults)

  // ---------------------------------------------------------------------------
  // The algorithm

  /** `existingUrlOrParent(for:)`: the nearest ancestor-or-self that exists, or the root. */
  function NearestExisting(fileExists: Path -> bool, p: Path): (r: Path)
    ensures IsAncestorOrSelf(r, p)
    ensures |r| <= 1 || fileExists(r)
    decreases |p|
  {
    if |p| <= 1 || fileExists(p) then p
    else NearestExisting(fileExists, Parent(p))
  }

  /**
    `persistPermissionURL(_:)`, given the store's contents: the result is the
    minted data, and only the URL's own entry may change, to that data.
  */
  function PersistOutcome(env: Platform, defaults: Defaults, url: Path): (r: Minted)
    ensures r.bookmark == env.mint(url)
    ensures r.bookmark.None? ==> r.defaults == defaults
    ensures r.bookmark.Some? ==> KeyForBookmarkData(Some(url)) in r.defaults
                                 && r.defaults[KeyForBookmarkData(Some(url))] == r.bookmark.value
    ensures forall k :: k != KeyForBookmarkData(Some(url)) ==>
              (k in r.defaults <==> k in defaults) && (k in defaults ==> r.defaults[k] == defaults[k])
  {
    match env.mint(url)
    case None => Minted(None, defaults)
    case Some(t) => Minted(Some(t), defaults[KeyForBookmarkData(Some(url)) := t])
  }

  /** `allowedURLAndBookmarkData(forFileURL:)`, given the store's contents. */
  function AllowedOutcome(env: Platform, defaults: Defaults, fileURL: Path): (r: Reply)
    ensures r.url.Some? ==> r.bookmark.Some?
  {
    var standardised := env.standardise(fileURL);
    match Lookup(defaults, standardised)
    case None => Reply(None, None, defaults)
    case Some(data) =>
      var resolved := env.resolve(data);
      if !resolved.isStale then Reply(resolved.url, Some(data), defaults)
      else
        var cleared := defaults - {KeyForBookmarkData(Some(standardised))};
        match resolved.url
        case None => Reply(None, None, cleared)
        case Some(u) =>
          var minted := PersistOutcome(env, cleared, u);
          Reply(if minted.bookmark.Some? then Some(u) else None, minted.bookmark, minted.defaults)
  }

  /**
    `askPermission(for:)`: the URL the open panel returns for a request. It
    starts at the nearest existing ancestor, and when the panel honours its
    delegate the answer is the requested URL or one of its ancestors.
  */
  function AskOutcome(env: Platform, requested: Path): (r: Option<Path>)
    ensures ChooserHonoursDelegate(env) && r.Some? ==> IsAncestorOrSelf(r.value, requested)
  {
    env.choose(NearestExisting(env.fileExists, requested), requested)
  }

  /** `requestPermissions(forFileURL:askIfNecessary:persistPermission:with:)`, given the store's contents. */
  function RequestOutcome(env: Platform, defaults: Defaults, fileURL: Path, askIfNecessary: bool, persist: bool): (r: Requested)
    ensures r.granted <==> r.call.Some?
  {
    var standardised := env.standardise(fileURL);
    var stored := AllowedOutcome(env, defaults, standardised);
    var allowed := if stored.url.None? && askIfNecessary then AskOutcome(env, standardised) else stored.url;
    match allowed
    case None => Requested(false, None, stored.defaults)
    case Some(u) =>
      if persist && stored.bookmark.None? then
        var minted := PersistOutcome(env, stored.defaults, u);
        Requested(true, Some(Grant(u, minted.bookmark)), minted.defaults)
      else
        Requested(true, Some(Grant(u, stored.bookmark)), stored.defaults)
  }

  /**
    `requestPermissions(forFileURL:fromWindow:persistPermission:with:)`: the
    arguments its callback receives, and the store afterwards.
  */
  function SheetOutcome(env: Platform, defaults: Defaults, fileURL: Path, persist: bool): (r: Reply)
    ensures r.url.None? ==> r.bookmark.None?
  {
    var standardised := env.standardise(fileURL);
    var stored := AllowedOutcome(env, defaults, standardised);
    if stored.url.Some? then stored
    else
      match AskOutcome(env, standardised)
      case None => Reply(None, None, stored.defaults)
      case Some(u) =>
        if persist then
          var minted := PersistOutcome(env, stored.defaults, u);
          Reply(Some(u), minted.bookmark, minted.defaults)
        else Reply(Some(u), None, stored.defaults)
  }

  /**
    `accessFileURL(_:askIfNecessary:persistPermission:with:)`, given the
    store's contents: the block runs only when the request succeeded and only
    between the start of access to the granted URL and its stop.
  */
  function AccessOutcome(env: Platform, defaults: Defaults, fileURL: Path, askIfNecessary: bool, persist: bool): (r: Accessed)
    ensures r.events == [] || |r.events| == 3
    ensures r.events != [] ==> r.success && r.events[0].StartedAccessing? && r.events[1] == RanBlock
                               && r.events[2] == StoppedAccessing(r.events[0].url)
                               && env.startAccessing(r.events[0].url)
  {
    var request := RequestOutcome(env, defaults, fileURL, askIfNecessary, persist);
    var events :=
      if request.call.Some? && env.startAccessing(request.call.value.url) then
        [StartedAccessing(request.call.value.url), RanBlock, StoppedAccessing(request.call.value.url)]
      else [];
    Accessed(request.granted, events, request.defaults)
  }

  // ---------------------------------------------------------------------------
  // existingUrlOrParent

  /**
    The nearest existing ancestor: the URL itself when it exists (and is not
    the root); otherwise nothing strictly between the result and the URL exists.
  */
  lemma {:induction false} NearestExistingIsNearest(fileExists: Path -> bool, p: Path)
    ensures |p| > 1 && fileExists(p) ==> NearestExisting(fileExists, p) == p
    ensures forall k :: |NearestExisting(fileExists, p)| < k <= |p| ==> !fileExists(p[..k])
    decreases |p|
  {
    if |p| > 1 && !fileExists(p) {
      var r := NearestExisting(fileExists, p);
      NearestExistingIsNearest(fileExists, Parent(p));
      assert p[..|p|] == p;
      forall k | |r| < k <= |p| ensures !fileExists(p[..k]) {
        if k < |p| {
          assert Parent(p)[..k] == p[..k];
        }
      }
    }
  }

  // ---------------------------------------------------------------------------
  // persistPermissionURL

  /**
    Persisting writes only when minting succeeds, and then exactly the minted
    data under the URL's key, which a later lookup of a non-root URL finds.
  */
  lemma PersistWritesMintedToken(env: Platform, defaults: Defaults, url: Path)
    ensures PersistOutcome(env, defaults, url).bookmark == env.mint(url)
    ensures env.mint(url).None? ==> PersistOutcome(env, defaults, url).defaults == defaults
    ensures env.mint(url).Some? && |url| > 1 ==> Lookup(PersistOutcome(env, defaults, url).defaults, url) == env.mint(url)
  {
  }

  // ---------------------------------------------------------------------------
  // allowedURLAndBookmarkData

  /** No stored data: neither URL nor data, and the store is untouched. */
  lemma NothingStoredNothingAllowed(env: Platform, defaults: Defaults, fileURL: Path)
    requires Lookup(defaults, env.standardise(fileURL)).None?
    ensures AllowedOutcome(env, defaults, fileURL) == Reply(None, None, defaults)
  {
  }

  /**
    A stale token: the entry of the requested (standardised) URL is cleared,
    and the token is re-minted for the URL it resolved to; without a resolved
    URL or when re-minting fails, no URL is returned.
  */
  lemma StaleTokenRenewed(env: Platform, defaults: Defaults, fileURL: Path)
    requires Lookup(defaults, env.standardise(fileURL)).Some?
    requires env.resolve(Lookup(defaults, env.standardise(fileURL)).value).isStale
    ensures var s := env.standardise(fileURL);
            var resolved := env.resolve(Lookup(defaults, s).value);
            var r := AllowedOutcome(env, defaults, fileURL);
            var cleared := defaults - {KeyForBookmarkData(Some(s))};
            && (r.url.Some? <==> resolved.url.Some? && env.mint(resolved.url.value).Some?)
            && (r.url.Some? ==> r.url == resolved.url)
            && (resolved.url.None? ==> r.bookmark.None? && r.defaults == cleared)
            && (resolved.url.Some? ==>
                  r.bookmark == env.mint(resolved.url.value)
                  && r.defaults == PersistOutcome(env, cleared, resolved.url.value).defaults)
  {
  }

  /**
    The entry cleared for a stale token is the requested URL's, not the
    ancestor's where the token was found: when the token came from an
    ancestor and resolves to no URL, the store keeps the stale token and the
    next lookup finds it again.
  */
  lemma StaleAncestorTokenKept(env: Platform, defaults: Defaults, fileURL: Path)
    requires Lookup(defaults, env.standardise(fileURL)).Some?
    requires KeyForBookmarkData(Some(env.standardise(fileURL))) !in defaults
    requires env.resolve(Lookup(defaults, env.standardise(fileURL)).value) == Resolved(None, true)
    ensures AllowedOutcome(env, defaults, fileURL) == Reply(None, None, defaults)
    ensures Lookup(AllowedOutcome(env, defaults, fileURL).defaults, env.standardise(fileURL))
            == Lookup(defaults, env.standardise(fileURL))
  {
  }

  /** A token that resolves without being stale is returned as it is, the store untouched. */
  lemma FreshTokenKept(env: Platform, defaults: Defaults, fileURL: Path)
    requires Lookup(defaults, env.standardise(fileURL)).Some?
    requires !env.resolve(Lookup(defaults, env.standardise(fileURL)).value).isStale
    ensures var data := Lookup(defaults, env.standardise(fileURL)).value;
            AllowedOutcome(env, defaults, fileURL) == Reply(env.resolve(data).url, Some(data), defaults)
  {
  }

  // ---------------------------------------------------------------------------
  // requestPermissions

  /**
    Without a usable stored URL and with `askIfNecessary` false, the request
    fails, the block is not called and the open panel is never consulted:
    any other chooser gives the same outcome.
  */
  lemma NoAskNoGrant(env: Platform, defaults: Defaults, fileURL: Path, persist: bool, otherChooser: (Path, Path) -> Option<Path>)
    requires AllowedOutcome(env, defaults, env.standardise(fileURL)).url.None?
    ensures var r := RequestOutcome(env, defaults, fileURL, false, persist);
            && !r.granted && r.call.None?
            && r.defaults == AllowedOutcome(env, defaults, env.standardise(fileURL)).defaults
            && r == RequestOutcome(env.(choose := otherChooser), defaults, fileURL, false, persist)
  {
  }

  /**
    A usable stored URL is granted without consulting the open panel, and the
    block receives that URL.
  */
  lemma StoredUrlGranted(env: Platform, defaults: Defaults, fileURL: Path, askIfNecessary: bool, persist: bool,
                         otherChooser: (Path, Path) -> Option<Path>)
    requires AllowedOutcome(env, defaults, env.standardise(fileURL)).url.Some?
    ensures var r := RequestOutcome(env, defaults, fileURL, askIfNecessary, persist);
            && r.granted
            && r.call.Some? && Some(r.call.value.url) == AllowedOutcome(env, defaults, env.standardise(fileURL)).url
            && r == RequestOutcome(env.(choose := otherChooser), defaults, fileURL, askIfNecessary, persist)
  {
  }

  /**
    The request succeeds exactly when a URL came from the store or from the
    open panel, and then the block is called once, with that URL.
  */
  lemma GrantedIffUrlObtained(env: Platform, defaults: Defaults, fileURL: Path, askIfNecessary: bool, persist: bool)
    ensures var s := env.standardise(fileURL);
            var stored := AllowedOutcome(env, defaults, s);
            var r := RequestOutcome(env, defaults, fileURL, askIfNecessary, persist);
            && (r.granted <==> stored.url.Some? || (askIfNecessary && AskOutcome(env, s).Some?))
            && (r.granted <==> r.call.Some?)
            && (stored.url.Some? ==> r.call == Some(Grant(stored.url.value, stored.bookmark)))
            && (stored.url.None? && askIfNecessary && AskOutcome(env, s).Some? ==> r.call.value.url == AskOutcome(env, s).value)
  {
  }

  /**
    Minting and saving happen only when `persist` is set and the lookup gave
    no data; otherwise the request leaves the store as the lookup left it.
  */
  lemma PersistsOnlyWhenAskedAndMissing(env: Platform, defaults: Defaults, fileURL: Path, askIfNecessary: bool, persist: bool)
    ensures var stored := AllowedOutcome(env, defaults, env.standardise(fileURL));
            var r := RequestOutcome(env, defaults, fileURL, askIfNecessary, persist);
            && (!persist || stored.bookmark.Some? || !r.granted ==> r.defaults == stored.defaults)
            && (persist && stored.bookmark.None? && r.granted ==>
                  r.defaults == PersistOutcome(env, stored.defaults, r.call.value.url).defaults
                  && r.call.value.bookmark == env.mint(r.call.value.url))
  {
  }

  /** With an honest open panel, a URL obtained by asking is the requested URL or an ancestor of it. */
  lemma AskedGrantIsAncestor(env: Platform, defaults: Defaults, fileURL: Path, askIfNecessary: bool, persist: bool)
    requires ChooserHonoursDelegate(env)
    requires AllowedOutcome(env, defaults, env.standardise(fileURL)).url.None?
    ensures var r := RequestOutcome(env, defaults, fileURL, askIfNecessary, persist);
            r.granted ==> IsAncestorOrSelf(r.call.value.url, env.standardise(fileURL))
  {
  }

  /**
    A token that can no longer be resolved but is not stale stays in the
    store, and the modal variant then neither saves a token for the URL the
    user picks nor gives the block anything but the old token.
  */
  lemma UnresolvedTokenBlocksPersist(env: Platform, defaults: Defaults, fileURL: Path)
    requires var s := env.standardise(env.standardise(fileURL));
             Lookup(defaults, s).Some? && env.resolve(Lookup(defaults, s).value) == Resolved(None, false)
    requires AskOutcome(env, env.standardise(fileURL)).Some?
    ensures var s := env.standardise(env.standardise(fileURL));
            var r := RequestOutcome(env, defaults, fileURL, true, true);
            && r.granted
            && r.defaults == defaults
            && r.call == Some(Grant(AskOutcome(env, env.standardise(fileURL)).value, Lookup(defaults, s)))
  {
  }

  /**
    A URL picked in the open panel and persisted serves every later request
    below it: once a token is saved for a non-root URL `u` chosen for one
    request, a later request for any URL under `u` (the same one included)
    is granted from the store, without the open panel, provided the token
    resolves and nothing was stored along that URL's path before.
  */
  lemma {:induction false} PersistedChoiceServesLaterRequests(
    env: Platform, defaults: Defaults, first: Path, later: Path, askLater: bool, persistLater: bool,
    otherChooser: (Path, Path) -> Option<Path>)
    requires var s := env.standardise(first); env.standardise(s) == s && Lookup(defaults, s).None?
    requires var s := env.standardise(later); env.standardise(s) == s && Lookup(defaults, s).None? && WellFormed(s)
    requires var u := AskOutcome(env, env.standardise(first));
             && u.Some? && |u.value| > 1 && IsAncestorOrSelf(u.value, env.standardise(later))
             && env.mint(u.value).Some?
             && !env.resolve(env.mint(u.value).value).isStale
             && env.resolve(env.mint(u.value).value).url.Some?
    ensures var r1 := RequestOutcome(env, defaults, first, true, true);
            var r2 := RequestOutcome(env, r1.defaults, later, askLater, persistLater);
            && r1.granted && r2.granted
            && r2 == RequestOutcome(env.(choose := otherChooser), r1.defaults, later, askLater, persistLater)
  {
    var s1, s2 := env.standardise(first), env.standardise(later);
    var u := AskOutcome(env, s1).value;
    var t := env.mint(u).value;
    var r1 := RequestOutcome(env, defaults, first, true, true);
    NothingStoredNothingAllowed(env, defaults, s1);
    assert r1.defaults == defaults[KeyForBookmarkData(Some(u)) := t];
    // the saved key is the deepest along the later URL's path
    LookupNoneIff(defaults, s2);
    assert u == s2[..|u|];
    forall j | |u| < j <= |s2| ensures KeyAt(s2, j) !in r1.defaults {
      KeyAtInjective(s2, |u|, j);
    }
    LookupIsDeepest(r1.defaults, s2, |u|);
    StoredUrlGranted(env, r1.defaults, later, askLater, persistLater, otherChooser);
  }

  /**
    Idempotence: with an honest open panel, asking for the same URL twice,
    persisting, prompts at most once.
  */
  lemma SecondRequestDoesNotAsk(env: Platform, defaults: Defaults, fileURL: Path, otherChooser: (Path, Path) -> Option<Path>)
    requires ChooserHonoursDelegate(env)
    requires var s := env.standardise(fileURL);
             env.standardise(s) == s && Lookup(defaults, s).None? && WellFormed(s)
    requires var u := AskOutcome(env, env.standardise(fileURL));
             && u.Some? && |u.value| > 1
             && env.mint(u.value).Some?
             && !env.resolve(env.mint(u.value).value).isStale
             && env.resolve(env.mint(u.value).value).url.Some?
    ensures var r1 := RequestOutcome(env, defaults, fileURL, true, true);
            var r2 := RequestOutcome(env, r1.defaults, fileURL, true, true);
            && r1.granted && r2.granted
            && r2 == RequestOutcome(env.(choose := otherChooser), r1.defaults, fileURL, true, true)
  {
    PersistedChoiceServesLaterRequests(env, defaults, fileURL, fileURL, true, true, otherChooser);
  }

  /**
    The root is never looked up, so a grant the user gives for "/" is saved
    but never found again: the next request for the same URL finds no data
    and, without asking, fails.
  */
  lemma RootChoiceNotRemembered(env: Platform, defaults: Defaults, fileURL: Path, persist: bool)
    requires var s := env.standardise(fileURL);
             env.standardise(s) == s && Lookup(defaults, s).None? && WellFormed(s)
    requires AskOutcome(env, env.standardise(fileURL)) == Some(Root)
    ensures var r1 := RequestOutcome(env, defaults, fileURL, true, true);
            && r1.granted
            && (env.mint(Root).Some? ==> r1.defaults == defaults[KeyForBookmarkData(Some(Root)) := env.mint(Root).value])
            && Lookup(r1.defaults, env.standardise(fileURL)).None?
            && !RequestOutcome(env, r1.defaults, fileURL, false, persist).granted
  {
    var s := env.standardise(fileURL);
    NothingStoredNothingAllowed(env, defaults, s);
    if env.mint(Root).Some? {
      LookupIgnoresRoot(defaults, env.mint(Root).value, s);
    }
    var r1 := RequestOutcome(env, defaults, fileURL, true, true);
    NothingStoredNothingAllowed(env, r1.defaults, s);
  }

  // ---------------------------------------------------------------------------
  // The sheet variant

  /** A usable stored URL goes straight to the callback, without the open panel. */
  lemma SheetStoredUrlShortCircuits(env: Platform, defaults: Defaults, fileURL: Path, persist: bool,
                                    otherChooser: (Path, Path) -> Option<Path>)
    requires AllowedOutcome(env, defaults, env.standardise(fileURL)).url.Some?
    ensures SheetOutcome(env, defaults, fileURL, persist) == AllowedOutcome(env, defaults, env.standardise(fileURL))
    ensures SheetOutcome(env, defaults, fileURL, persist) == SheetOutcome(env.(choose := otherChooser), defaults, fileURL, persist)
  {
  }

  /**
    Otherwise the callback gets (nil, nil) on cancel; a token is saved only
    when the user picked a URL and `persist` is set, and the callback then
    gets exactly the minted data.
  */
  lemma SheetPersistsOnlyPickedUrl(env: Platform, defaults: Defaults, fileURL: Path, persist: bool)
    requires AllowedOutcome(env, defaults, env.standardise(fileURL)).url.None?
    ensures var s := env.standardise(fileURL);
            var stored := AllowedOutcome(env, defaults, s);
            var r := SheetOutcome(env, defaults, fileURL, persist);
            && r.url == AskOutcome(env, s)
            && (r.url.None? ==> r.bookmark.None? && r.defaults == stored.defaults)
            && (r.url.Some? && !persist ==> r.bookmark.None? && r.defaults == stored.defaults)
            && (r.url.Some? && persist ==>
                  r.bookmark == env.mint(r.url.value)
                  && r.defaults == PersistOutcome(env, stored.defaults, r.url.value).defaults)
  {
  }

  // ---------------------------------------------------------------------------
  // accessFileURL

  /**
    The block runs only inside a successful start of scoped access, which is
    always matched by a stop; the result is the request's, whether or not
    scoped access could be started.
  */
  lemma AccessBracketsBlock(env: Platform, defaults: Defaults, fileURL: Path, askIfNecessary: bool, persist: bool,
                            otherStart: Path -> bool)
    ensures var request := RequestOutcome(env, defaults, fileURL, askIfNecessary, persist);
            var a := AccessOutcome(env, defaults, fileURL, askIfNecessary, persist);
            && a.success == request.granted
            && a.defaults == request.defaults
            && (RanBlock in a.events <==> request.granted && env.startAccessing(request.call.value.url))
            && (forall i :: 0 <= i < |a.events| && a.events[i] == RanBlock ==>
                  0 < i < |a.events| - 1 && a.events[i - 1].StartedAccessing? && a.events[i + 1].StoppedAccessing?)
            && (forall u :: StartedAccessing(u) in a.events <==> StoppedAccessing(u) in a.events)
            && a.success == AccessOutcome(env.(startAccessing := otherStart), defaults, fileURL, askIfNecessary, persist).success
  {
  }
}
