/**
 * The verifier-key loader of the zk-config provider.  The key repository
 * is a map from file path to file bytes; a path that is absent stands for
 * a file that cannot be read, so the read rejects.
 */
module VerifierKeys {
  import opened Wrappers
  import opened KeyPaths

  type Key = seq<bv8>

  /** The key repository: path of each readable key file to its bytes. */
  type KeyFiles = map<string, Key>

  /** `getVerifierKey(name, contract)`: read the key file, or reject (`None`). */
  function GetVerifierKey(files: KeyFiles, name: string, ns: string): (k: Option<Key>)
    ensures k.Some? <==> KeyPath(ns, name) in files
    ensures k.Some? ==> k.value == files[KeyPath(ns, name)]
  {
    var path := KeyPath(ns, name);
    if path in files then Some(files[path]) else None
  }

  /** The loads of `names` with each rejection caught as `null` (line 84). */
  function Attempts(files: KeyFiles, names: seq<string>, ns: string): (os: seq<Option<Key>>)
    ensures |os| == |names|
    ensures forall i :: 0 <= i < |names| ==> (os[i].Some? <==> KeyPath(ns, names[i]) in files)
  {
    seq(|names|, i requires 0 <= i < |names| => GetVerifierKey(files, names[i], ns))
  }

  /** `filter(key => key !== null)`: the present values, in order. */
  function Somes<T>(os: seq<Option<T>>): (r: seq<T>)
    ensures |r| <= |os|
  {
    if os == [] then []
    else (if os[0].Some? then [os[0].value] else []) + Somes(os[1..])
  }

  /** `getVerifierKeys(names, contract)` (lines 83-86): never rejects; the keys that loaded. */
  function GetVerifierKeys(files: KeyFiles, names: seq<string>, ns: string): (keys: seq<Key>)
    ensures |keys| <= |names|
  {
    Somes(Attempts(files, names, ns))
  }

  /** Reference definition: the names whose key file is readable, in input order. */
  function Present(files: KeyFiles, names: seq<string>, ns: string): (p: seq<string>)
    ensures |p| <= |names|
    ensures forall n :: n in p ==> n in names && KeyPath(ns, n) in files
  {
    if names == [] then []
    else (if KeyPath(ns, names[0]) in files then [names[0]] else []) + Present(files, names[1..], ns)
  }

  lemma {:induction false} SomesAll<T>(os: seq<Option<T>>)
    ensures |Somes(os)| == |os| <==> forall i :: 0 <= i < |os| ==> os[i].Some?
  {
    if os != [] {
      SomesAll(os[1..]);
      if os[0].Some? {
        assert forall i :: 1 <= i < |os| ==> os[i] == os[1..][i - 1];
      }
    }
  }

  lemma {:induction false} SomesAppend<T>(a: seq<Option<T>>, b: seq<Option<T>>)
    ensures Somes(a + b) == Somes(a) + Somes(b)
  {
    if a != [] {
      assert (a + b)[1..] == a[1..] + b;
      SomesAppend(a[1..], b);
    } else {
      assert a + b == b;
    }
  }

  /**
   * The aggregate is exactly the bytes of the readable key files, one per
   * readable name, in the order of the names.
   */
  lemma {:induction false} GetVerifierKeysAreLoadedKeys(files: KeyFiles, names: seq<string>, ns: string)
    ensures var keys, p := GetVerifierKeys(files, names, ns), Present(files, names, ns);
      |keys| == |p| && forall i :: 0 <= i < |p| ==> keys[i] == files[KeyPath(ns, p[i])]
  {
    if names != [] {
      GetVerifierKeysAreLoadedKeys(files, names[1..], ns);
      assert Attempts(files, names, ns)[1..] == Attempts(files, names[1..], ns);
    }
  }

  /** Never more keys than names; as many exactly when every key file is readable. */
  lemma GetVerifierKeysCount(files: KeyFiles, names: seq<string>, ns: string)
    ensures |GetVerifierKeys(files, names, ns)| <= |names|
    ensures |GetVerifierKeys(files, names, ns)| == |names| <==>
      forall n :: n in names ==> KeyPath(ns, n) in files
  {
    var os := Attempts(files, names, ns);
    SomesAll(os);
    assert forall i :: 0 <= i < |names| ==> (os[i].Some? <==> KeyPath(ns, names[i]) in files);
  }

  /** Loading is per name and order-preserving: the aggregate of a concatenation is the concatenation. */
  lemma GetVerifierKeysAppend(files: KeyFiles, a: seq<string>, b: seq<string>, ns: string)
    ensures GetVerifierKeys(files, a + b, ns) == GetVerifierKeys(files, a, ns) + GetVerifierKeys(files, b, ns)
  {
    assert Attempts(files, a + b, ns) == Attempts(files, a, ns) + Attempts(files, b, ns);
    SomesAppend(Attempts(files, a, ns), Attempts(files, b, ns));
  }
}
