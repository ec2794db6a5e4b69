/**
  AppSandboxFileAccessOpenSavePanelDelegate: the open panel's delegate,
  which enables a URL in the panel only when it is the requested URL or one
  of its ancestors, by comparing path components.
*/
module PanelDelegate {
  import opened Paths

  class OpenSavePanelDelegate {
    /** The requested URL's components, captured once by the initialiser. */
    const pathComponents: seq<string>

    /** `init(fileURL:)` */
    constructor (fileURL: Path)
      ensures pathComponents == fileURL
    {
      pathComponents := fileURL;
    }

    /**
      `panel(_:shouldEnable:)`: a candidate with more components than the
      requested URL is refused, and so is one that differs from it in any
      component they share; every other candidate, the empty one included,
      is enabled.
    */
    method PanelShouldEnable(url: Path) returns (enable: bool)
      ensures enable <==> IsAncestorOrSelf(url, pathComponents)
      ensures |url| > |pathComponents| ==> !enable
      ensures (exists i :: 0 <= i < |url| && i < |pathComponents| && url[i] != pathComponents[i]) ==> !enable
    {
      var otherPathComponents := url;
      if |otherPathComponents| > |pathComponents| {
        return false;
      }
      for i := 0 to |otherPathComponents|
        invariant otherPathComponents[..i] == pathComponents[..i]
      {
        if otherPathComponents[i] != pathComponents[i] {
          return false;
        }
      }
      assert otherPathComponents == otherPathComponents[..|otherPathComponents|];
      return true;
    }
  }

  /** The URL reached from `p` by deleting its last path component `n` times: its first |p| - n components. */
  function Up(p: Path, n: nat): (r: Path)
    requires n <= |p|
    ensures r == p[..|p| - n]
    decreases n
  {
    if n == 0 then p else Up(Parent(p), n - 1)
  }

  /**
    What the delegate enables, seen from the requested URL: exactly the URLs
    reached from it by repeatedly deleting its last path component (zero
    times gives the URL itself, |requested| times the empty component list).
  */
  lemma EnabledAncestors(a: Path, requested: Path)
    ensures IsAncestorOrSelf(a, requested) <==> exists n: nat :: n <= |requested| && a == Up(requested, n)
  {
    if IsAncestorOrSelf(a, requested) {
      var n := |requested| - |a|;
      assert a == Up(requested, n);
    }
  }
}
