/**
  File URLs as Foundation's `URL.pathComponents` sees them.

  A path is its list of components, the first of which is the root marker
  "/": the URL file:///Users/alice is ["/", "Users", "alice"] and the root
  file:/// is ["/"]. `deletingLastPathComponent()` drops the last component,
  and a URL's `path` string has more than one character exactly when the URL
  is not the root (lemma PathCountAboveOneIffNotRoot).
*/
module Paths {

  type Path = seq<string>

  /** The root directory, file:///. */
  const Root: Path := ["/"]

  /** `URL.deletingLastPathComponent()`. */
  function Parent(p: Path): (r: Path)
    requires |p| > 0
    ensures |r| == |p| - 1 && IsAncestorOrSelf(r, p)
  {
    p[..|p| - 1]
  }

  /** `a` is `p` itself or one of `p`'s ancestors: `a`'s components begin `p`'s. */
  predicate IsAncestorOrSelf(a: Path, p: Path) {
    |a| <= |p| && a == p[..|a|]
  }

  /** A component of a standardised path: not empty, no separator inside. */
  predicate PlainComponent(c: string) {
    c != "" && '/' !in c
  }

  predicate AllPlain(cs: seq<string>) {
    forall i :: 0 <= i < |cs| ==> PlainComponent(cs[i])
  }

  /** An absolute, standardised file path: the root marker, then plain components. */
  predicate WellFormed(p: Path) {
    |p| >= 1 && p[0] == "/" && AllPlain(p[1..])
  }

  /** The components separated by "/". */
  function Join(cs: seq<string>): string
    decreases |cs|
  {
    if |cs| == 0 then ""
    else if |cs| == 1 then cs[0]
    else cs[0] + "/" + Join(cs[1..])
  }

  /** `URL.path`: "/" for the root, "/Users/alice" for ["/", "Users", "alice"]. */
  function PathString(p: Path): string {
    if |p| == 0 then "" else "/" + Join(p[1..])
  }

  /** `URL.absoluteString` of a file URL. */
  function AbsoluteString(p: Path): string {
    "file://" + PathString(p)
  }

  // ---------------------------------------------------------------------------
  // Ancestors

  lemma AncestorOrSelfTransitive(a: Path, b: Path, c: Path)
    requires IsAncestorOrSelf(a, b) && IsAncestorOrSelf(b, c)
    ensures IsAncestorOrSelf(a, c)
  {
  }

  /** Every non-empty ancestor of a well-formed path is well-formed. */
  lemma AncestorWellFormed(a: Path, p: Path)
    requires WellFormed(p) && IsAncestorOrSelf(a, p) && |a| >= 1
    ensures WellFormed(a)
  {
  }

  // ---------------------------------------------------------------------------
  // Path strings

  /** Join puts its first component first, followed by "/" and the rest when there is one. */
  lemma JoinHead(cs: seq<string>)
    requires |cs| >= 1
    ensures |Join(cs)| >= |cs[0]| && Join(cs)[..|cs[0]|] == cs[0]
    ensures |cs| == 1 ==> Join(cs) == cs[0]
    ensures |cs| > 1 ==> |Join(cs)| > |cs[0]| && Join(cs)[|cs[0]|] == '/'
                         && Join(cs)[|cs[0]| + 1..] == Join(cs[1..])
  {
  }

  /** Distinct lists of plain components join to distinct strings. */
  lemma {:induction false} JoinInjective(a: seq<string>, b: seq<string>)
    requires AllPlain(a) && AllPlain(b)
    requires Join(a) == Join(b)
    ensures a == b
    decreases |a|
  {
    if |a| == 0 {
      if |b| != 0 {
        JoinHead(b);
        assert false;
      }
    } else if |b| == 0 {
      JoinHead(a);
      assert false;
    } else {
      var s := Join(a);
      var x, y := a[0], b[0];
      JoinHead(a);
      JoinHead(b);
      assert PlainComponent(x) && PlainComponent(y);
      if |x| != |y| {
        assert false;
      }
      assert x == y;
      if |a| == 1 && |b| > 1 {
        assert false;
      } else if |a| > 1 && |b| == 1 {
        assert false;
      } else if |a| > 1 {
        assert AllPlain(a[1..]) by {
          forall i | 0 <= i < |a[1..]| ensures PlainComponent(a[1..][i]) {
            assert a[1..][i] == a[i + 1];
          }
        }
        assert AllPlain(b[1..]) by {
          forall i | 0 <= i < |b[1..]| ensures PlainComponent(b[1..][i]) {
            assert b[1..][i] == b[i + 1];
          }
        }
        JoinInjective(a[1..], b[1..]);
        assert a == [x] + a[1..] && b == [y] + b[1..];
      } else {
        assert a == [x] && b == [y];
      }
    }
  }

  lemma PrefixCancel(x: string, s: string, t: string)
    requires x + s == x + t
    ensures s == t
  {
    assert s == (x + s)[|x|..];
    assert t == (x + t)[|x|..];
  }

  /** Distinct well-formed paths have distinct absolute strings. */
  lemma AbsoluteStringInjective(p: Path, q: Path)
    requires WellFormed(p) && WellFormed(q)
    requires AbsoluteString(p) == AbsoluteString(q)
    ensures p == q
  {
    PrefixCancel("file://", PathString(p), PathString(q));
    PrefixCancel("/", Join(p[1..]), Join(q[1..]));
    JoinInjective(p[1..], q[1..]);
    assert p == [p[0]] + p[1..] && q == [q[0]] + q[1..];
  }

  /**
    The loops of the file access code stop when `path.count > 1` fails;
    on a well-formed path that is exactly when only the root is left.
  */
  lemma PathCountAboveOneIffNotRoot(p: Path)
    requires WellFormed(p)
    ensures |PathString(p)| > 1 <==> |p| > 1
    ensures |p| == 1 <==> p == Root
  {
  }
}
