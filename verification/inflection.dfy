/**
 * The two string helpers the tenant type tag is built from:
 * `demodulize` (everything after the last "::") and `downcase`.
 * Only ASCII letters are case-folded.
 */
module Inflection {
  import opened Wrappers

  /** `s` holds the namespace separator "::" starting at index `i`. */
  predicate IsSepAt(s: string, i: int) {
    0 <= i && i + 1 < |s| && s[i] == ':' && s[i + 1] == ':'
  }

  /** `s` holds no namespace separator at all. */
  ghost predicate HasNoSep(s: string) {
    forall i :: !IsSepAt(s, i)
  }

  /** The last index below `n` at which a separator starts, if any (String#rindex). */
  function LastSepBelow(s: string, n: nat): (r: Option<nat>)
    requires n <= |s|
    ensures r.Some? ==> r.value < n && IsSepAt(s, r.value)
    ensures r.Some? ==> forall j :: r.value < j < n ==> !IsSepAt(s, j)
    ensures r.None? ==> forall j :: j < n ==> !IsSepAt(s, j)
    decreases n
  {
    if n == 0 then None
    else if IsSepAt(s, n - 1) then Some(n - 1)
    else LastSepBelow(s, n - 1)
  }

  /**
   * The last segment of a namespaced constant name: "Foo::Bar::Account"
   * gives "Account", a name without "::" is returned as it is.
   */
  function Demodulize(path: string): (r: string)
    ensures HasNoSep(r)
    ensures HasNoSep(path) ==> r == path
    ensures !HasNoSep(path) ==>
              |r| + 2 <= |path| && IsSepAt(path, |path| - |r| - 2) && path[|path| - |r|..] == r &&
              forall j :: |path| - |r| - 2 < j ==> !IsSepAt(path, j)
  {
    match LastSepBelow(path, |path|)
    case None => path
    case Some(i) =>
      var r := path[i + 2..];
      assert forall j :: IsSepAt(r, j) ==> IsSepAt(path, i + 2 + j);
      r
  }

  predicate IsUpper(c: char) {
    'A' <= c <= 'Z'
  }

  /** ASCII lower-case counterpart of `c`; every other character is kept. */
  function LowerChar(c: char): (d: char)
    ensures !IsUpper(d)
    ensures IsUpper(c) ==> d as int == c as int + 32
    ensures !IsUpper(c) ==> d == c
  {
    if IsUpper(c) then (c as int + 32) as char else c
  }

  /** String#downcase, restricted to ASCII letters. */
  function Downcase(s: string): (r: string)
    ensures |r| == |s|
    ensures forall i :: 0 <= i < |s| ==> r[i] == LowerChar(s[i])
  {
    if s == [] then [] else [LowerChar(s[0])] + Downcase(s[1..])
  }

  /**
   * The namespace in front of a constant name does not survive `demodulize`:
   * "Foo::Account" and "Account" give the same segment.
   */
  lemma {:induction false} DemodulizeDropsNamespace(ns: string, name: string)
    requires forall k :: 0 <= k < |name| ==> name[k] != ':'
    ensures Demodulize(ns + "::" + name) == name
    ensures Demodulize(name) == name
  {
    var path := ns + "::" + name;
    assert HasNoSep(name);
    assert IsSepAt(path, |ns|);
    forall j | |ns| < j ensures !IsSepAt(path, j) {
      if j + 1 < |path| {
        assert path[j + 1] == name[j + 1 - |ns| - 2];
      }
    }
    var r := Demodulize(path);
    var p := |path| - |r| - 2;
    assert p == |ns|;
  }
}
