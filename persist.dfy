/**
  The default bookmark store, AppSandboxFileAccessPersist: security-scoped
  bookmark data kept in the UserDefaults domain under the key
  "bd_" + the URL's absolute string. A lookup walks from the URL up through
  its ancestors, giving up before the root, and returns the first data found.
*/
module Persist {
  import opened Options
  import opened Paths

  /** Bookmark data: the opaque bytes of a security-scoped bookmark. */
  type Token = seq<bv8>

  /** The UserDefaults domain the store writes to. */
  type Defaults = map<string, Token>

  /**
    `keyForBookmarkData(for:)`: "bd_" followed by the URL's absolute string
    ("" for a nil URL). Every key carries the prefix, and only the nil URL's
    key is the bare prefix.
  */
  function KeyForBookmarkData(url: Option<Path>): (key: string)
    ensures |key| >= 3 && key[..3] == "bd_"
    ensures key == "bd_" <==> url.None?
  {
    "bd_" + (if url.Some? then AbsoluteString(url.value) else "")
  }

  /** The key of the ancestor-or-self of `p` that has `k` components. */
  function KeyAt(p: Path, k: nat): string
    requires k <= |p|
  {
    KeyForBookmarkData(Some(p[..k]))
  }

  /** What `bookmarkData(for:)` answers for `url` when the domain holds `defaults`. */
  function Lookup(defaults: Defaults, url: Path): (r: Option<Token>)
    ensures r.Some? ==> r.value in defaults.Values
    decreases |url|
  {
    if |url| <= 1 then None
    else if KeyForBookmarkData(Some(url)) in defaults then Some(defaults[KeyForBookmarkData(Some(url))])
    else Lookup(defaults, Parent(url))
  }

  class AppSandboxFileAccessPersist {
    /** The UserDefaults domain (UserDefaults.standard). */
    var defaults: Defaults

    constructor ()
      ensures defaults == map[]
    {
      defaults := map[];
    }

    /** `bookmarkData(for:)`: reads the domain, never writes it. */
    method BookmarkData(url: Path) returns (bookmark: Option<Token>)
      ensures bookmark == Lookup(defaults, url)
    {
      var subURL := url;
      while |subURL| > 1
        invariant Lookup(defaults, subURL) == Lookup(defaults, url)
        decreases |subURL|
      {
        var key := KeyForBookmarkData(Some(subURL));
        if key in defaults {
          return Some(defaults[key]);
        }
        subURL := Parent(subURL);
      }
      return None;
    }

    /** `setBookmarkData(_:for:)`: storing nil removes the entry, as UserDefaults does. */
    method SetBookmarkData(data: Option<Token>, url: Option<Path>)
      modifies this
      ensures data.Some? ==> defaults == old(defaults)[KeyForBookmarkData(url) := data.value]
      ensures data.None? ==> defaults == old(defaults) - {KeyForBookmarkData(url)}
    {
      var key := KeyForBookmarkData(url);
      if data.Some? {
        defaults := defaults[key := data.value];
      } else {
        defaults := defaults - {key};
      }
    }

    /** `clearBookmarkData(for:)`. */
    method ClearBookmarkData(url: Path)
      modifies this
      ensures defaults == old(defaults) - {KeyForBookmarkData(Some(url))}
    {
      var key := KeyForBookmarkData(Some(url));
      defaults := defaults - {key};
    }
  }

  // ---------------------------------------------------------------------------
  // Keys

  /** Keys are "bd_" + the absolute string, and distinct well-formed URLs (or a URL and nil) get distinct keys. */
  lemma KeyInjective(u: Path, v: Path)
    requires WellFormed(u) && WellFormed(v)
    ensures KeyForBookmarkData(Some(u)) == "bd_" + AbsoluteString(u)
    ensures KeyForBookmarkData(Some(u)) == KeyForBookmarkData(Some(v)) <==> u == v
    ensures KeyForBookmarkData(None) != KeyForBookmarkData(Some(u))
  {
    if KeyForBookmarkData(Some(u)) == KeyForBookmarkData(Some(v)) {
      PrefixCancel("bd_", AbsoluteString(u), AbsoluteString(v));
      AbsoluteStringInjective(u, v);
    }
    assert |KeyForBookmarkData(Some(u))| > |KeyForBookmarkData(None)|;
  }

  /** Keys of two different ancestors of one well-formed path differ. */
  lemma KeyAtInjective(p: Path, j: nat, k: nat)
    requires WellFormed(p) && 1 <= j <= |p| && 1 <= k <= |p| && j != k
    ensures KeyAt(p, j) != KeyAt(p, k)
  {
    AncestorWellFormed(p[..j], p);
    AncestorWellFormed(p[..k], p);
    KeyInjective(p[..j], p[..k]);
  }

  // ---------------------------------------------------------------------------
  // Lookup

  lemma KeyAtParent(p: Path, k: nat)
    requires 1 <= |p| && k <= |p| - 1
    ensures KeyAt(Parent(p), k) == KeyAt(p, k)
  {
    assert Parent(p)[..k] == p[..k];
  }

  /** A lookup finds nothing exactly when no non-root ancestor-or-self of the URL has data. */
  lemma {:induction false} LookupNoneIff(defaults: Defaults, url: Path)
    ensures Lookup(defaults, url).None? <==> forall k :: 2 <= k <= |url| ==> KeyAt(url, k) !in defaults
    decreases |url|
  {
    if |url| > 1 {
      assert url[..|url|] == url;
      assert KeyAt(url, |url|) == KeyForBookmarkData(Some(url));
      LookupNoneIff(defaults, Parent(url));
      forall k | 2 <= k <= |url| - 1 ensures KeyAt(Parent(url), k) == KeyAt(url, k) {
        KeyAtParent(url, k);
      }
    }
  }

  /**
    Upward search: when the ancestor-or-self of the URL with `k` components
    (not the root) has data and no deeper one does, the lookup returns that data.
  */
  lemma {:induction false} LookupIsDeepest(defaults: Defaults, url: Path, k: nat)
    requires 2 <= k <= |url| && KeyAt(url, k) in defaults
    requires forall j :: k < j <= |url| ==> KeyAt(url, j) !in defaults
    ensures Lookup(defaults, url) == Some(defaults[KeyAt(url, k)])
    decreases |url|
  {
    assert url[..|url|] == url;
    if k < |url| {
      assert KeyAt(url, |url|) !in defaults;
      KeyAtParent(url, k);
      forall j | k < j <= |url| - 1 ensures KeyAt(Parent(url), j) !in defaults {
        KeyAtParent(url, j);
      }
      LookupIsDeepest(defaults, Parent(url), k);
    }
  }

  /** Round trip: data set for a non-root URL is what a lookup of that URL returns. */
  lemma SetThenLookup(defaults: Defaults, url: Path, data: Token)
    requires |url| > 1
    ensures Lookup(defaults[KeyForBookmarkData(Some(url)) := data], url) == Some(data)
  {
  }

  /**
    Setting or clearing the entry of a URL `u` leaves every lookup alone
    except for the URLs that `u` is a non-root ancestor-or-self of.
  */
  lemma {:induction false} LookupAfterWriteElsewhere(defaults: Defaults, u: Path, data: Token, url: Path)
    requires WellFormed(u) && WellFormed(url)
    requires !(|u| > 1 && IsAncestorOrSelf(u, url))
    ensures Lookup(defaults[KeyForBookmarkData(Some(u)) := data], url) == Lookup(defaults, url)
    ensures Lookup(defaults - {KeyForBookmarkData(Some(u))}, url) == Lookup(defaults, url)
    decreases |url|
  {
    if |url| > 1 {
      KeyInjective(u, url);
      assert KeyForBookmarkData(Some(u)) != KeyForBookmarkData(Some(url));
      var up := Parent(url);
      AncestorWellFormed(up, url);
      if |u| > 1 && IsAncestorOrSelf(u, up) {
        AncestorOrSelfTransitive(u, up, url);
      }
      LookupAfterWriteElsewhere(defaults, u, data, up);
    }
  }

  /** After its entry is cleared, a URL's lookup answers what its parent's does. */
  lemma ClearThenLookup(defaults: Defaults, url: Path)
    requires WellFormed(url) && |url| > 1
    ensures Lookup(defaults - {KeyForBookmarkData(Some(url))}, url) == Lookup(defaults, Parent(url))
  {
    var up := Parent(url);
    AncestorWellFormed(up, url);
    var token: Token := [];
    LookupAfterWriteElsewhere(defaults, url, token, up);
  }

  /** The root is never looked up: data stored or removed for "/" changes no lookup. */
  lemma LookupIgnoresRoot(defaults: Defaults, data: Token, url: Path)
    requires WellFormed(url)
    ensures Lookup(defaults[KeyForBookmarkData(Some(Root)) := data], url) == Lookup(defaults, url)
    ensures Lookup(defaults - {KeyForBookmarkData(Some(Root))}, url) == Lookup(defaults, url)
    ensures Lookup(map[KeyForBookmarkData(Some(Root)) := data], url) == None
  {
    LookupAfterWriteElsewhere(defaults, Root, data, url);
    LookupAfterWriteElsewhere(map[], Root, data, url);
  }
}
