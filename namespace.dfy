/**
 * The key directory ("namespace") of a contract, derived from its display
 * name as `name.toLowerCase().replace(' ', '_')`: lower-case the name, then
 * replace the FIRST space only (a string pattern given to `replace`
 * matches once).  Characters are ASCII, as every hard-coded name is.
 */
module Namespace {
  import opened Wrappers

  predicate IsUpper(c: char) {
    'A' <= c <= 'Z'
  }

  /** `toLowerCase` on one ASCII character. */
  function LowerChar(c: char): (d: char)
    ensures !IsUpper(d)
    ensures IsUpper(c) ==> d as int == c as int + 32
    ensures !IsUpper(c) ==> d == c
  {
    if IsUpper(c) then (c as int + 32) as char else c
  }

  /** `String.prototype.toLowerCase` on an ASCII string. */
  function ToLower(s: string): (r: string)
    ensures |r| == |s|
  {
    if s == [] then [] else [LowerChar(s[0])] + ToLower(s[1..])
  }

  lemma {:induction false} ToLowerAt(s: string, i: nat)
    requires i < |s|
    ensures ToLower(s)[i] == LowerChar(s[i])
  {
    if i > 0 {
      ToLowerAt(s[1..], i - 1);
    }
  }

  /** `String.prototype.indexOf` for one character; `None` stands for -1. */
  function IndexOf(s: string, c: char): (r: Option<nat>)
    ensures r.None? <==> c !in s
    ensures r.Some? ==> r.value < |s| && s[r.value] == c && c !in s[..r.value]
  {
    if s == [] then None
    else if s[0] == c then Some(0)
    else match IndexOf(s[1..], c)
      case None => None
      case Some(k) =>
        assert s[..k + 1] == [s[0]] + s[1..][..k];
        Some(k + 1)
  }

  /** `s.replace(from, to)` with a one-character string pattern: splice at the first match. */
  function ReplaceFirst(s: string, from: char, to: char): (r: string)
    ensures |r| == |s|
    ensures from !in s ==> r == s
    ensures from in s ==> to in r
  {
    match IndexOf(s, from)
    case None => s
    case Some(k) => s[..k] + [to] + s[k + 1..]
  }

  /** Only the first occurrence of `from` is replaced; every other character is kept. */
  lemma ReplaceFirstAt(s: string, from: char, to: char)
    ensures |ReplaceFirst(s, from, to)| == |s|
    ensures forall i :: 0 <= i < |s| ==>
      ReplaceFirst(s, from, to)[i] == if IndexOf(s, from) == Some(i) then to else s[i]
  {
  }

  /** The contract directory of line 130: lower-case, then the first space becomes `_`. */
  function ContractDir(name: string): (ns: string)
    ensures |ns| == |name|
  {
    ReplaceFirst(ToLower(name), ' ', '_')
  }

  /** Lower-casing moves no space: the first space of the lowered name is that of the name. */
  lemma {:induction false} IndexOfSpaceLowered(s: string)
    ensures IndexOf(ToLower(s), ' ') == IndexOf(s, ' ')
  {
    if s != [] {
      IndexOfSpaceLowered(s[1..]);
      assert ToLower(s)[1..] == ToLower(s[1..]);
    }
  }

  /**
   * The namespace has the name's length; at the name's first space it holds
   * `_`, everywhere else the lower-cased character of the name (so later
   * spaces stay spaces), and it holds no upper-case letter.
   */
  lemma ContractDirAt(name: string)
    ensures |ContractDir(name)| == |name|
    ensures forall i :: 0 <= i < |name| ==>
      ContractDir(name)[i] == if IndexOf(name, ' ') == Some(i) then '_' else LowerChar(name[i])
    ensures forall i :: 0 <= i < |name| ==> !IsUpper(ContractDir(name)[i])
  {
    IndexOfSpaceLowered(name);
    ReplaceFirstAt(ToLower(name), ' ', '_');
    forall i | 0 <= i < |name| {
      ToLowerAt(name, i);
    }
  }

  /** A name without spaces is only lower-cased. */
  lemma ContractDirWithoutSpace(name: string)
    requires ' ' !in name
    ensures ContractDir(name) == ToLower(name)
  {
    IndexOfSpaceLowered(name);
  }

  /** A name with a space: the namespace is the lowered name spliced with `_` at the first space. */
  lemma ContractDirWithSpace(name: string, k: nat)
    requires k < |name| && name[k] == ' ' && ' ' !in name[..k]
    ensures ContractDir(name) == ToLower(name)[..k] + "_" + ToLower(name)[k + 1..]
  {
    IndexOfSpaceLowered(name);
  }

  /**
   * `dir` is the namespace of `name` when it agrees with `name` lower-cased
   * everywhere except at the first space `k`, where it holds `_`.
   */
  lemma ContractDirIs(name: string, k: nat, dir: string)
    requires k < |name| && name[k] == ' '
    requires forall i :: 0 <= i < k ==> name[i] != ' '
    requires |dir| == |name| && dir[k] == '_'
    requires forall i :: 0 <= i < |name| && i != k ==> dir[i] == LowerChar(name[i])
    ensures ContractDir(name) == dir
  {
    ContractDirAt(name);
    assert ' ' !in name[..k];
    assert IndexOf(name, ' ') == Some(k);
  }

  /** Only the first space is replaced: a later space stays. */
  lemma ContractDirReplacesOnce()
    ensures ContractDir("A B C") == "a_b c"
  {
    ContractDirWithSpace("A B C", 1);
  }
}
