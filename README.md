# AppSandboxFileAccess, modelled in Dafny

AppSandboxFileAccess lets a macOS application inside the App Sandbox reach a
file or folder. For a requested URL it looks for a security-scoped bookmark
saved earlier for that URL or one of its ancestors, resolves it (clearing and
re-minting it when it is stale), and otherwise asks the user with an open
panel whose delegate only enables the requested URL and its ancestors. If
asked to, it saves a bookmark for the granted URL, and it can run a caller's
block between a start and a stop of security-scoped access.

This project models the three pieces that make those decisions:

- `paths.dfy` (module `Paths`): a file URL as its list of path components,
  `["/", "Users", "alice"]`; its parent; its `path` and `absoluteString`.
- `persist.dfy` (module `Persist`): the default bookmark store,
  `AppSandboxFileAccessPersist`, as a class over a `map<string, Token>`
  standing for the UserDefaults domain, with the upward lookup as a loop
  proved equal to the recursive function `Lookup`.
- `panel_delegate.dfy` (module `PanelDelegate`): the open panel's delegate;
  its component-by-component loop is proved to be the prefix test
  `IsAncestorOrSelf`.
- `resolution.dfy` (module `Resolution`): the resolution algorithm as
  functions of the store's contents (`AllowedOutcome`, `RequestOutcome`,
  `SheetOutcome`, `AccessOutcome`, ...), and the lemmas about them.
- `file_access.dfy` (module `FileAccess`): the class `AppSandboxFileAccess`,
  whose methods run the algorithm step by step on the store in use and are
  proved to end in the state, and with the results, those functions give.

The operating system is a value of type `Resolution.Platform` passed to every
method: standardising a URL, minting and resolving bookmark data, checking
that a file exists, the open panel's answer (given its start directory and the
URL its delegate was made for), starting scoped access, and
`URL(fileURLWithPath:)`. That the open panel "was not consulted" is stated as:
replacing the panel by any other gives the same outcome.

Some behaviours of the code that the lemmas make explicit, and that the model
follows as written:

- `accessFileURL` returns the request's result even when starting scoped
  access fails (the caller's block then does not run), and stops access only
  when it was started (`AccessBracketsBlock`).
- A stale token clears the entry of the requested URL, not of the ancestor
  where the token was found; a stale ancestor token that resolves to no URL
  therefore stays in the store and is found again next time
  (`StaleAncestorTokenKept`).
- When a stored token fails to resolve without being marked stale, the modal
  request still holds that token, so it saves nothing for the URL the user
  then picks and hands the block the old token (`UnresolvedTokenBlocksPersist`);
  the sheet variant does save it.
- The lookup never looks at the root, so a grant given for "/" is saved but
  never found again (`RootChoiceNotRemembered`); a persisted non-root choice
  does serve every later request below it without asking
  (`PersistedChoiceServesLaterRequests`, `SecondRequestDoesNotAsk`).

## Model

| member | source | states |
|---|---|---|
| Paths.Parent | AppSandboxFileAccess/Classes/AppSandboxFileAccessPersist.swift:50 | deleting the last path component gives an ancestor one component shorter |
| Paths.PathCountAboveOneIffNotRoot | AppSandboxFileAccess/Classes/AppSandboxFileAccessPersist.swift:42-43 | for a standardised path, `path.count > 1` holds exactly when the URL is not the root "/", so the loops' test is "more than one component" |
| Paths.AbsoluteStringInjective | AppSandboxFileAccess/Classes/AppSandboxFileAccessPersist.swift:69-72 | distinct standardised file URLs have distinct absolute strings |
| Persist.KeyForBookmarkData | AppSandboxFileAccess/Classes/AppSandboxFileAccessPersist.swift:69-72 | every key starts with "bd_", and the key is the bare prefix exactly for the nil URL |
| Persist.KeyInjective | AppSandboxFileAccess/Classes/AppSandboxFileAccessPersist.swift:69-72 | the key is "bd_" followed by the absolute string; distinct URLs get distinct keys, and no URL's key is the nil URL's |
| Persist.Lookup | AppSandboxFileAccess/Classes/AppSandboxFileAccessPersist.swift:37-55 | whatever a lookup returns is data held in the store |
| Persist.AppSandboxFileAccessPersist.BookmarkData | AppSandboxFileAccess/Classes/AppSandboxFileAccessPersist.swift:37-55 | the upward loop returns what `Lookup` specifies, and reads the store without changing it (no modifies clause) |
| Persist.AppSandboxFileAccessPersist.SetBookmarkData | AppSandboxFileAccess/Classes/AppSandboxFileAccessPersist.swift:57-61 | writes the data under the URL's key, or removes that key for nil data; every other entry is unchanged |
| Persist.AppSandboxFileAccessPersist.ClearBookmarkData | AppSandboxFileAccess/Classes/AppSandboxFileAccessPersist.swift:63-67 | removes exactly the URL's key; every other entry is unchanged |
| Persist.LookupNoneIff | AppSandboxFileAccess/Classes/AppSandboxFileAccessPersist.swift:41-54 | a lookup returns nil exactly when neither the URL nor any non-root ancestor has data |
| Persist.LookupIsDeepest | AppSandboxFileAccess/Classes/AppSandboxFileAccessPersist.swift:41-51 | a lookup returns the data of the deepest non-root ancestor-or-self that has data |
| Persist.SetThenLookup | AppSandboxFileAccess/Classes/AppSandboxFileAccessPersist.swift:41-61 | round trip: after setting data for a non-root URL, looking that URL up returns the data |
| Persist.LookupAfterWriteElsewhere | AppSandboxFileAccess/Classes/AppSandboxFileAccessPersist.swift:57-67 | setting or clearing one URL's entry changes no lookup of a URL it is not a non-root ancestor-or-self of |
| Persist.ClearThenLookup | AppSandboxFileAccess/Classes/AppSandboxFileAccessPersist.swift:63-67 | after a URL's entry is cleared, its lookup answers what its parent's does |
| Persist.LookupIgnoresRoot | AppSandboxFileAccess/Classes/AppSandboxFileAccessPersist.swift:42-43 | the root is never looked up: data stored or removed for "/" changes no lookup, and data stored only for "/" is never returned |
| PanelDelegate.OpenSavePanelDelegate.constructor | AppSandboxFileAccess/Classes/AppSandboxFileAccessOpenSavePanelDelegate.swift:37-43 | captures the requested URL's components, in a field that never changes afterwards |
| PanelDelegate.OpenSavePanelDelegate.PanelShouldEnable | AppSandboxFileAccess/Classes/AppSandboxFileAccessOpenSavePanelDelegate.swift:47-69 | enables a URL exactly when its components are a prefix of the requested URL's; more components, or a mismatch at any shared index, means refusal |
| PanelDelegate.EnabledAncestors | AppSandboxFileAccess/Classes/AppSandboxFileAccessOpenSavePanelDelegate.swift:58-69 | the prefix test the delegate implements accepts exactly the URLs reached from the requested one by deleting its last component zero or more times |
| Resolution.NearestExisting | AppSandboxFileAccess/Classes/AppSandboxFileAccess.swift:267-279 | the result is an ancestor-or-self of the URL that exists or is the root |
| Resolution.NearestExistingIsNearest | AppSandboxFileAccess/Classes/AppSandboxFileAccess.swift:267-279 | an existing non-root URL is returned itself; nothing strictly between the result and the URL exists |
| Resolution.PersistOutcome | AppSandboxFileAccess/Classes/AppSandboxFileAccess.swift:219-231 | persisting returns the minted data; on failure the store is unchanged, on success the URL's key holds the data, and no other entry changes |
| Resolution.AllowedOutcome | AppSandboxFileAccess/Classes/AppSandboxFileAccess.swift:235-265 | a URL is returned only together with bookmark data |
| Resolution.AskOutcome | AppSandboxFileAccess/Classes/AppSandboxFileAccess.swift:281-327 | when the open panel honours its delegate, the URL it returns is the requested URL or one of its ancestors |
| Resolution.RequestOutcome | AppSandboxFileAccess/Classes/AppSandboxFileAccess.swift:138-164 | the request succeeds exactly when its block is called |
| Resolution.SheetOutcome | AppSandboxFileAccess/Classes/AppSandboxFileAccess.swift:174-197 | a callback without a URL also gets no bookmark data |
| Resolution.AccessOutcome | AppSandboxFileAccess/Classes/AppSandboxFileAccess.swift:79-93 | either nothing happens around the block or exactly start, block, stop on one URL; that happens only when the request succeeded and access started |
| Resolution.PersistWritesMintedToken | AppSandboxFileAccess/Classes/AppSandboxFileAccess.swift:219-231 | persisting returns exactly the minted data, writes nothing when minting fails, and otherwise makes a lookup of the (non-root) URL return the minted data |
| Resolution.NothingStoredNothingAllowed | AppSandboxFileAccess/Classes/AppSandboxFileAccess.swift:243-264 | with no stored data the lookup step returns (nil, nil) and leaves the store alone |
| Resolution.StaleTokenRenewed | AppSandboxFileAccess/Classes/AppSandboxFileAccess.swift:251-261 | a stale token clears the requested URL's entry and is re-minted for the URL it resolved to; the URL is dropped when there is none or re-minting fails |
| Resolution.StaleAncestorTokenKept | AppSandboxFileAccess/Classes/AppSandboxFileAccess.swift:243-254 | a stale token found at an ancestor and resolving to no URL is not removed, and the next lookup finds it again |
| Resolution.FreshTokenKept | AppSandboxFileAccess/Classes/AppSandboxFileAccess.swift:243-250 | a token that is not stale is returned with the URL it resolves to, and the store is untouched |
| Resolution.NoAskNoGrant | AppSandboxFileAccess/Classes/AppSandboxFileAccess.swift:146-153 | no stored URL and no asking: the request fails, calls no block, changes nothing after the lookup, and does not depend on the open panel |
| Resolution.StoredUrlGranted | AppSandboxFileAccess/Classes/AppSandboxFileAccess.swift:143-163 | a stored URL is granted and handed to the block, whatever the open panel would answer |
| Resolution.GrantedIffUrlObtained | AppSandboxFileAccess/Classes/AppSandboxFileAccess.swift:143-163 | success exactly when a URL came from the store or (when asking) from the open panel; the block is then called once, with that URL |
| Resolution.PersistsOnlyWhenAskedAndMissing | AppSandboxFileAccess/Classes/AppSandboxFileAccess.swift:155-158 | a token is minted and saved only when persisting was asked for and the lookup gave no data; otherwise the store stays as the lookup left it |
| Resolution.AskedGrantIsAncestor | AppSandboxFileAccess/Classes/AppSandboxFileAccess.swift:281-302 | when the open panel honours its delegate, a URL obtained by asking is the requested URL or an ancestor of it |
| Resolution.UnresolvedTokenBlocksPersist | AppSandboxFileAccess/Classes/AppSandboxFileAccess.swift:143-161 | a stored token that resolves to nothing without being stale prevents saving the user's choice, and the block receives the old token |
| Resolution.PersistedChoiceServesLaterRequests | AppSandboxFileAccess/Classes/AppSandboxFileAccess.swift:138-164 | a persisted non-root choice makes every later request for a URL under it succeed from the store, without the open panel |
| Resolution.SecondRequestDoesNotAsk | AppSandboxFileAccess/Classes/AppSandboxFileAccess.swift:138-164 | two persisting requests for the same URL consult the open panel at most once |
| Resolution.RootChoiceNotRemembered | AppSandboxFileAccess/Classes/AppSandboxFileAccess.swift:155-158 | a grant for "/" is saved under the root's key but never found, so a later request without asking fails |
| Resolution.SheetStoredUrlShortCircuits | AppSandboxFileAccess/Classes/AppSandboxFileAccess.swift:179-185 | the sheet variant hands a stored URL and its data to the callback without the open panel |
| Resolution.SheetPersistsOnlyPickedUrl | AppSandboxFileAccess/Classes/AppSandboxFileAccess.swift:187-196 | otherwise the callback gets (nil, nil) on cancel, and a token is saved only for a picked URL with `persist` set |
| Resolution.AccessBracketsBlock | AppSandboxFileAccess/Classes/AppSandboxFileAccess.swift:79-93 | the block runs only between a successful start and its stop, starts and stops match, and the result is the request's whether or not access started |
| FileAccess.AppSandboxFileAccess.constructor | AppSandboxFileAccess/Classes/AppSandboxFileAccess.swift:46-56 | a new object has no host store and a fresh, empty default store |
| FileAccess.AppSandboxFileAccess.DelegateOrDefault | AppSandboxFileAccess/Classes/AppSandboxFileAccess.swift:50-52 | the store in use is the host's when present, otherwise the default |
| FileAccess.AppSandboxFileAccess.SetBookmarkPersistanceDelegate | AppSandboxFileAccess/Classes/AppSandboxFileAccess.swift:47 | assigning the host store switches the store in use to it, or back to the default for nil |
| FileAccess.AppSandboxFileAccess.AccessFilePath | AppSandboxFileAccess/Classes/AppSandboxFileAccess.swift:66-68 | a nil path is the empty path; otherwise as `AccessFileURL` on the path's URL |
| FileAccess.AppSandboxFileAccess.AccessFileURL | AppSandboxFileAccess/Classes/AppSandboxFileAccess.swift:79-93 | result, events around the block and new store are those `AccessOutcome` specifies |
| FileAccess.AppSandboxFileAccess.RequestPermissionsForFilePath | AppSandboxFileAccess/Classes/AppSandboxFileAccess.swift:105-109 | as `RequestPermissions` on the path's URL |
| FileAccess.AppSandboxFileAccess.RequestPermissions | AppSandboxFileAccess/Classes/AppSandboxFileAccess.swift:138-164 | result, block call and new store are those `RequestOutcome` specifies |
| FileAccess.AppSandboxFileAccess.RequestPermissionsFromWindow | AppSandboxFileAccess/Classes/AppSandboxFileAccess.swift:174-197 | callback arguments and new store are those `SheetOutcome` specifies |
| FileAccess.AppSandboxFileAccess.PersistPermissionPath | AppSandboxFileAccess/Classes/AppSandboxFileAccess.swift:204-207 | as `PersistPermissionURL` on the path's URL |
| FileAccess.AppSandboxFileAccess.PersistPermissionURL | AppSandboxFileAccess/Classes/AppSandboxFileAccess.swift:219-231 | returns exactly the minted data; on success the store gains it under the URL's key, on failure it is unchanged |
| FileAccess.AppSandboxFileAccess.AllowedURLAndBookmarkData | AppSandboxFileAccess/Classes/AppSandboxFileAccess.swift:235-265 | returned URL, data and new store are those `AllowedOutcome` specifies |
| FileAccess.AppSandboxFileAccess.ExistingUrlOrParent | AppSandboxFileAccess/Classes/AppSandboxFileAccess.swift:267-279 | the loop terminates with the nearest existing ancestor-or-self, or the root |
| FileAccess.AppSandboxFileAccess.AskPermission | AppSandboxFileAccess/Classes/AppSandboxFileAccess.swift:281-327 | the open panel starts at the nearest existing ancestor with a delegate for the requested URL, and its answer is the result |

## Left out

- The open panel itself (NSOpenPanel configuration, `runModal`, `beginSheet`, `NSApplication.activate`): only its answer is modelled, as `Platform.choose`; whether the panel honours its delegate is a hypothesis (`ChooserHonoursDelegate`) of the lemmas that need it.
- Main-thread marshalling (`Thread.isMainThread`, `DispatchQueue.main.sync`): concurrency plumbing with no effect on the outcome.
- The panel's title, message and prompt strings and the `Bundle` info-dictionary extension: localisation and host metadata.
- Bookmark minting and resolution, URL standardisation and symlink resolution, `fileExists`, and starting security-scoped access are platform calls, modelled as total functions in `Platform` (one answer per question for a given `Platform` value); stopping access has no modelled effect beyond its event.
- The sheet variant's completion handler runs later in the source; the model runs it to completion at once.
- The caller's block is modelled as the call it receives (`Grant`) or the `RanBlock` event; what the block itself does, and the difference between a nil block and one that does nothing, are not modelled.
- UserDefaults is one process-wide, thread-safe domain; each modelled store holds its own map, starting empty.
- The host's store is any implementation of `AppSandboxFileAccessProtocol`; it is modelled as another `AppSandboxFileAccessPersist` (the only implementation in the code), so a host store with different lookup rules is not modelled. Its weak reference is a nullable field, without lifetime.
- `absoluteString` is modelled as "file://" followed by the path; the trailing slash Foundation adds to directory URLs and percent-encoding are not modelled. Path components are plain strings, so the `as? String` cast always succeeds.
- PanelDelegate.OpenSavePanelDelegate.PanelShouldEnable: components are compared as literal character sequences, whereas Swift's `String ==` treats canonically equivalent strings (a precomposed "é" and "e" followed by a combining accent) as equal, so the model refuses some candidates the delegate enables; Unicode normalisation is not modelled.
- AppSandboxFileAccess/AppSandboxFileAccess.h is an interface declaration with no logic.
