/**
 * The location of a verifier key in the key repository:
 * `join('build', 'contracts', ns, 'keys', circuit + '.verifier')`.
 * `Join` is POSIX `path.join` for segments that hold no '/', '.' or '..':
 * empty segments vanish, the rest are separated by '/'.
 */
module KeyPaths {

  const Sep: char := '/'

  /** True of a segment that names one directory level. */
  predicate IsSegment(seg: string) {
    seg != [] && Sep !in seg && seg != "." && seg != ".."
  }

  /** `path.join` of the given segments (normalisation of empty segments only). */
  function Join(segs: seq<string>): (path: string)
  {
    if segs == [] then []
    else if segs[0] == [] then Join(segs[1..])
    else
      var rest := Join(segs[1..]);
      if rest == [] then segs[0] else segs[0] + [Sep] + rest
  }

  /**
   * `String.prototype.split('/')`: the maximal runs between separators,
   * empty runs included.  Not used by the deployer; it is the inverse of
   * `Join` through which the key path's segments are read back.
   */
  function Split(s: string): (parts: seq<string>)
    ensures |parts| >= 1
  {
    if s == [] then [[]]
    else
      var rest := Split(s[1..]);
      if s[0] == Sep then [[]] + rest else [[s[0]] + rest[0]] + rest[1..]
  }

  /** The file holding the verifier key of `circuit` in namespace `ns` (line 78). */
  function KeyPath(ns: string, circuit: string): (path: string)
    ensures |path| > 16 && path[..16] == "build/contracts/"
  {
    var segs := ["build", "contracts", ns, "keys", circuit + ".verifier"];
    assert segs[4] != [];
    assert Join(segs[2..]) != [];
    assert Join(segs[1..]) == "contracts/" + Join(segs[2..]) by {
      assert segs[1..][1..] == segs[2..];
    }
    assert Join(segs) == "build/" + Join(segs[1..]);
    Join(segs)
  }

  lemma {:induction false} SplitSegment(a: string)
    requires Sep !in a
    ensures Split(a) == [a]
  {
    if a != [] {
      SplitSegment(a[1..]);
      assert [a[0]] + a[1..] == a;
    }
  }

  lemma {:induction false} SplitAfterSegment(a: string, b: string)
    requires Sep !in a
    ensures Split(a + [Sep] + b) == [a] + Split(b)
  {
    if a == [] {
      assert a + [Sep] + b == [Sep] + b;
    } else {
      assert (a + [Sep] + b)[1..] == a[1..] + [Sep] + b;
      SplitAfterSegment(a[1..], b);
      assert [a[0]] + a[1..] == a;
    }
  }

  lemma {:induction false} JoinNonEmpty(segs: seq<string>)
    requires |segs| >= 1 && IsSegment(segs[0])
    ensures Join(segs) != []
  {
  }

  /** Splitting the join of proper segments gives the segments back. */
  lemma {:induction false} SplitJoin(segs: seq<string>)
    requires |segs| >= 1
    requires forall k :: 0 <= k < |segs| ==> IsSegment(segs[k])
    ensures Split(Join(segs)) == segs
  {
    if |segs| == 1 {
      SplitSegment(segs[0]);
    } else {
      JoinNonEmpty(segs[1..]);
      SplitJoin(segs[1..]);
      SplitAfterSegment(segs[0], Join(segs[1..]));
      assert [segs[0]] + segs[1..] == segs;
    }
  }

  /**
   * For a namespace and a circuit name that are proper segments, the key
   * path consists of exactly the segments build, contracts, ns, keys and
   * `circuit + ".verifier"`, in that order.
   */
  lemma KeyPathSegments(ns: string, circuit: string)
    requires IsSegment(ns) && Sep !in circuit
    ensures Split(KeyPath(ns, circuit)) == ["build", "contracts", ns, "keys", circuit + ".verifier"]
  {
    var segs := ["build", "contracts", ns, "keys", circuit + ".verifier"];
    assert Sep !in circuit + ".verifier";
    SplitJoin(segs);
  }

  /** Distinct (namespace, circuit) pairs never share a key file. */
  lemma KeyPathInjective(ns1: string, c1: string, ns2: string, c2: string)
    requires IsSegment(ns1) && Sep !in c1
    requires IsSegment(ns2) && Sep !in c2
    requires KeyPath(ns1, c1) == KeyPath(ns2, c2)
    ensures ns1 == ns2 && c1 == c2
  {
    KeyPathSegments(ns1, c1);
    KeyPathSegments(ns2, c2);
    var f1, f2 := c1 + ".verifier", c2 + ".verifier";
    assert f1 == f2;
    assert c1 == f1[..|f1| - 9] && c2 == f2[..|f2| - 9];
  }

  /** With a proper namespace the key path is the five segments joined by '/'. */
  lemma KeyPathForm(ns: string, circuit: string)
    requires IsSegment(ns)
    ensures KeyPath(ns, circuit) == "build/contracts/" + ns + "/keys/" + circuit + ".verifier"
  {
    var file := circuit + ".verifier";
    var segs := ["build", "contracts", ns, "keys", file];
    assert Join(segs[4..]) == file by {
      assert segs[4..][1..] == [];
    }
    assert Join(segs[3..]) == "keys/" + file by {
      assert segs[3..][1..] == segs[4..];
    }
    assert Join(segs[2..]) == ns + "/keys/" + file by {
      assert segs[2..][1..] == segs[3..];
    }
    assert Join(segs[1..]) == "contracts/" + ns + "/keys/" + file by {
      assert segs[1..][1..] == segs[2..];
    }
  }
}
