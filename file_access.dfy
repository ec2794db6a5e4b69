/**
  AppSandboxFileAccess: the object an application uses to reach a file
  inside the App Sandbox. It holds the bookmark store (the host's override,
  or its own default) and runs the permission-resolution algorithm step by
  step; each method is proved to compute what the corresponding function of
  module Resolution specifies.
*/
module FileAccess {
  import opened Options
  import opened Paths
  import opened Persist
  import opened PanelDelegate
  import opened Resolution

  class AppSandboxFileAccess {
    /** The host's bookmark store, if it supplied one (a weak reference in the source). */
    var bookmarkPersistanceDelegate: AppSandboxFileAccessPersist?
    /** The store used when the host supplied none. */
    var defaultDelegate: AppSandboxFileAccessPersist

    constructor ()
      ensures bookmarkPersistanceDelegate == null
      ensures fresh(defaultDelegate) && defaultDelegate.defaults == map[]
    {
      bookmarkPersistanceDelegate := null;
      defaultDelegate := new AppSandboxFileAccessPersist();
    }

    /** `bookmarkPersistanceDelegateOrDefault`: the host's store when there is one, otherwise the default. */
    function DelegateOrDefault(): (store: AppSandboxFileAccessPersist)
      reads this
      ensures bookmarkPersistanceDelegate != null ==> store == bookmarkPersistanceDelegate
      ensures bookmarkPersistanceDelegate == null ==> store == defaultDelegate
    {
      if bookmarkPersistanceDelegate != null then bookmarkPersistanceDelegate else defaultDelegate
    }

    /** The host assigns (or removes) its own store. */
    method SetBookmarkPersistanceDelegate(delegate: AppSandboxFileAccessPersist?)
      modifies this`bookmarkPersistanceDelegate
      ensures bookmarkPersistanceDelegate == delegate
      ensures delegate == null ==> DelegateOrDefault() == defaultDelegate
      ensures delegate != null ==> DelegateOrDefault() == delegate
    {
      bookmarkPersistanceDelegate := delegate;
    }

    /** `accessFilePath(_:askIfNecessary:persistPermission:with:)`: a nil path is the empty one. */
    method AccessFilePath(env: Platform, path: Option<string>, askIfNecessary: bool := true, persist: bool)
      returns (success: bool, events: seq<AccessEvent>)
      modifies DelegateOrDefault()
      ensures Accessed(success, events, DelegateOrDefault().defaults)
              == AccessOutcome(env, old(DelegateOrDefault().defaults), env.fileURL(path.GetOr("")), askIfNecessary, persist)
    {
      success, events := AccessFileURL(env, env.fileURL(path.GetOr("")), askIfNecessary, persist);
    }

    /**
      `accessFileURL(_:askIfNecessary:persistPermission:with:)`: requests
      permission and, inside the block handed to the request, runs the
      caller's block between a successful start of security-scoped access
      and the matching stop. `events` records what happened around it.
    */
    method AccessFileURL(env: Platform, fileURL: Path, askIfNecessary: bool := true, persist: bool)
      returns (success: bool, events: seq<AccessEvent>)
      modifies DelegateOrDefault()
      ensures Accessed(success, events, DelegateOrDefault().defaults)
              == AccessOutcome(env, old(DelegateOrDefault().defaults), fileURL, askIfNecessary, persist)
    {
      var call;
      success, call := RequestPermissions(env, fileURL, askIfNecessary, persist);
      events := [];
      if call.Some? {
        var securityScopedFileURL := call.value.url;
        if env.startAccessing(securityScopedFileURL) {
          events := events + [StartedAccessing(securityScopedFileURL)];
          events := events + [RanBlock];
          events := events + [StoppedAccessing(securityScopedFileURL)];
        }
      }
    }

    /** `requestPermissions(forFilePath:askIfNecessary:persistPermission:with:)` */
    method RequestPermissionsForFilePath(env: Platform, filePath: string, askIfNecessary: bool := true, persist: bool)
      returns (granted: bool, call: Option<Grant>)
      modifies DelegateOrDefault()
      ensures Requested(granted, call, DelegateOrDefault().defaults)
              == RequestOutcome(env, old(DelegateOrDefault().defaults), env.fileURL(filePath), askIfNecessary, persist)
    {
      granted, call := RequestPermissions(env, env.fileURL(filePath), askIfNecessary, persist);
    }

    /**
      `requestPermissions(forFileURL:askIfNecessary:persistPermission:with:)`:
      `granted` is the result, `call` the arguments the block receives (None
      when it is not called).
    */
    method RequestPermissions(env: Platform, fileURL: Path, askIfNecessary: bool := true, persist: bool)
      returns (granted: bool, call: Option<Grant>)
      modifies DelegateOrDefault()
      ensures Requested(granted, call, DelegateOrDefault().defaults)
              == RequestOutcome(env, old(DelegateOrDefault().defaults), fileURL, askIfNecessary, persist)
    {
      var standardisedFileURL := env.standardise(fileURL);
      var allowedURL, bookmarkData := AllowedURLAndBookmarkData(env, standardisedFileURL);

      if allowedURL.None? && askIfNecessary {
        allowedURL := AskPermission(env, standardisedFileURL);
      }

      if allowedURL.None? {
        return false, None;
      }
      var confirmedAllowedURL := allowedURL.value;

      if persist && bookmarkData.None? {
        bookmarkData := PersistPermissionURL(env, confirmedAllowedURL);
      }

      return true, Some(Grant(confirmedAllowedURL, bookmarkData));
    }

    /**
      `requestPermissions(forFileURL:fromWindow:persistPermission:with:)`:
      `url` and `bookmark` are what the callback receives once the sheet
      closes; the callback is always called, exactly once.
    */
    method RequestPermissionsFromWindow(env: Platform, fileURL: Path, persist: bool)
      returns (url: Option<Path>, bookmark: Option<Token>)
      modifies DelegateOrDefault()
      ensures Reply(url, bookmark, DelegateOrDefault().defaults)
              == SheetOutcome(env, old(DelegateOrDefault().defaults), fileURL, persist)
    {
      var standardisedFileURL := env.standardise(fileURL);
      var allowedURL, bookmarkData := AllowedURLAndBookmarkData(env, standardisedFileURL);
      if allowedURL.Some? {
        return allowedURL, bookmarkData;
      }

      var picked := AskPermission(env, standardisedFileURL);
      bookmarkData := None;
      if picked.Some? && persist {
        bookmarkData := PersistPermissionURL(env, picked.value);
      }
      return picked, bookmarkData;
    }

    /** `persistPermissionPath(_:)` */
    method PersistPermissionPath(env: Platform, path: string) returns (bookmark: Option<Token>)
      modifies DelegateOrDefault()
      ensures Minted(bookmark, DelegateOrDefault().defaults)
              == PersistOutcome(env, old(DelegateOrDefault().defaults), env.fileURL(path))
    {
      bookmark := PersistPermissionURL(env, env.fileURL(path));
    }

    /**
      `persistPermissionURL(_:)`: mints bookmark data for the URL and, only
      when minting succeeds, saves it under the URL's key; returns exactly
      the minted data (None on failure, leaving the store as it was).
    */
    method PersistPermissionURL(env: Platform, url: Path) returns (bookmark: Option<Token>)
      modifies DelegateOrDefault()
      ensures bookmark == env.mint(url)
      ensures bookmark.Some? ==> DelegateOrDefault().defaults
                                 == old(DelegateOrDefault().defaults)[KeyForBookmarkData(Some(url)) := bookmark.value]
      ensures bookmark.None? ==> DelegateOrDefault().defaults == old(DelegateOrDefault().defaults)
    {
      bookmark := env.mint(url);
      if bookmark.Some? {
        DelegateOrDefault().SetBookmarkData(bookmark, Some(url));
      }
    }

    /**
      `allowedURLAndBookmarkData(forFileURL:)`: looks the standardised URL up
      in the store and resolves what it finds; a stale token is cleared and
      re-minted for the URL it resolved to.
    */
    method AllowedURLAndBookmarkData(env: Platform, fileURL: Path)
      returns (allowedURL: Option<Path>, bookmarkData: Option<Token>)
      modifies DelegateOrDefault()
      ensures Reply(allowedURL, bookmarkData, DelegateOrDefault().defaults)
              == AllowedOutcome(env, old(DelegateOrDefault().defaults), fileURL)
    {
      allowedURL := None;
      var standardisedFileURL := env.standardise(fileURL);
      var store := DelegateOrDefault();
      bookmarkData := store.BookmarkData(standardisedFileURL);
      if bookmarkData.Some? {
        var resolved := env.resolve(bookmarkData.value);
        allowedURL := resolved.url;
        if resolved.isStale {
          bookmarkData := None;
          store.ClearBookmarkData(standardisedFileURL);
          if allowedURL.Some? {
            bookmarkData := PersistPermissionURL(env, allowedURL.value);
            if bookmarkData.None? {
              allowedURL := None;
            }
          }
        }
      }
    }

    /**
      `existingUrlOrParent(for:)`: walks up from the URL until it exists or
      only the root is left.
    */
    method ExistingUrlOrParent(env: Platform, url: Path) returns (existing: Path)
      ensures existing == NearestExisting(env.fileExists, url)
      ensures IsAncestorOrSelf(existing, url)
      ensures |existing| <= 1 || env.fileExists(existing)
    {
      var path := url;
      while |path| > 1
        invariant NearestExisting(env.fileExists, path) == NearestExisting(env.fileExists, url)
        decreases |path|
      {
        if env.fileExists(path) {
          break;
        }
        path := Parent(path);
      }
      existing := path;
    }

    /**
      `askPermission(for:)` with `openPanel(for:)`: the panel opens at the
      nearest existing ancestor, with a delegate made for the requested URL;
      the user's choice, or None on cancel, is the result.
    */
    method AskPermission(env: Platform, url: Path) returns (allowedURL: Option<Path>)
      ensures allowedURL == AskOutcome(env, url)
    {
      var openPanelDelegate := new OpenSavePanelDelegate(url);
      var existingURL := ExistingUrlOrParent(env, url);
      allowedURL := env.choose(existingURL, openPanelDelegate.pathComponents);
    }
  }
}
