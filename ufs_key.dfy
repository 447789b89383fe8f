/**
 * The key of the under-file-system cache: a URI's scheme and authority, lower-cased, with ""
 * for a missing part. The URI's path plays no part, so every path of one endpoint shares a key.
 */
module UfsKeys {
  import opened Results
  import JavaHash

  /** The parts of a parsed URI the key uses; URI parsing itself is not part of this model. */
  datatype Uri = Uri(scheme: Option<string>, authority: Option<string>, path: string)

  /** Lower-casing of one character (ASCII letters only). */
  function LowerChar(c: char): char {
    if 'A' <= c <= 'Z' then (c as int + 32) as char else c
  }

  /** `String.toLowerCase`, restricted to ASCII letters. */
  function Lower(s: string): string {
    seq(|s|, i requires 0 <= i < |s| => LowerChar(s[i]))
  }

  predicate IsLowerCase(s: string) {
    forall i :: 0 <= i < |s| ==> !('A' <= s[i] <= 'Z')
  }

  /** The two strings differ at most in the case of their letters. */
  predicate EqualIgnoringCase(s: string, t: string) {
    |s| == |t| && forall i :: 0 <= i < |s| ==> LowerChar(s[i]) == LowerChar(t[i])
  }

  /** Two strings lower-case alike exactly when they differ only in letter case. */
  lemma LowerEqualIff(s: string, t: string)
    ensures Lower(s) == Lower(t) <==> EqualIgnoringCase(s, t)
  {
    if EqualIgnoringCase(s, t) {
      assert forall i :: 0 <= i < |s| ==> Lower(s)[i] == Lower(t)[i];
    }
    if Lower(s) == Lower(t) {
      assert forall i :: 0 <= i < |s| ==> Lower(s)[i] == LowerChar(s[i]);
    }
  }

  datatype Key = Key(scheme: string, authority: string)

  /** A URI part as the key stores it. */
  function Normalized(part: Option<string>): string {
    if part.None? then "" else Lower(part.value)
  }

  /** The `Key(AlluxioURI)` constructor. */
  function KeyOf(uri: Uri): (k: Key)
    ensures IsLowerCase(k.scheme) && IsLowerCase(k.authority)
    ensures uri.scheme.None? ==> k.scheme == ""
    ensures uri.scheme.Some? ==> EqualIgnoringCase(k.scheme, uri.scheme.value)
    ensures uri.authority.None? ==> k.authority == ""
    ensures uri.authority.Some? ==> EqualIgnoringCase(k.authority, uri.authority.value)
  {
    Key(Normalized(uri.scheme), Normalized(uri.authority))
  }

  /** Two present URI parts normalize alike exactly when they differ only in letter case. */
  lemma NormalizedEqualIff(p: Option<string>, q: Option<string>)
    requires p.Some? && q.Some?
    ensures Normalized(p) == Normalized(q) <==> EqualIgnoringCase(p.value, q.value)
  {
    LowerEqualIff(p.value, q.value);
  }

  /** URIs whose schemes and authorities differ only in letter case share a key, whatever
      their paths. */
  lemma KeyIgnoresPathAndCase(u: Uri, v: Uri)
    requires u.scheme.Some? == v.scheme.Some? && u.authority.Some? == v.authority.Some?
    requires u.scheme.Some? ==> EqualIgnoringCase(u.scheme.value, v.scheme.value)
    requires u.authority.Some? ==> EqualIgnoringCase(u.authority.value, v.authority.value)
    ensures KeyOf(u) == KeyOf(v)
  {
    if u.scheme.Some? {
      NormalizedEqualIff(u.scheme, v.scheme);
    }
    if u.authority.Some? {
      NormalizedEqualIff(u.authority, v.authority);
    }
  }

  /** `Key.equals`: equal scheme and equal authority. */
  predicate KeyEquals(a: Key, b: Key) {
    a.scheme == b.scheme && a.authority == b.authority
  }

  lemma KeyEqualsIsEquality(a: Key, b: Key)
    ensures KeyEquals(a, b) <==> a == b
  {
  }

  /** `Key.hashCode`: `Objects.hashCode(scheme, authority)`. */
  function KeyHash(k: Key): (h: int)
    ensures JavaHash.IsInt(h)
  {
    JavaHash.CombineHashes([JavaHash.StringHash(k.scheme), JavaHash.StringHash(k.authority)])
  }

  /** `Key.toString`. */
  function KeyString(k: Key): (s: string)
    ensures |s| == |k.scheme| + 3 + |k.authority|
    ensures s[..|k.scheme|] == k.scheme && s[|k.scheme| + 3..] == k.authority
    ensures s[|k.scheme|..|k.scheme| + 3] == "://"
  {
    k.scheme + "://" + k.authority
  }

  /** A URI scheme never contains ':', and then the printed key determines the key: the first
      ':' ends the scheme. */
  lemma KeyStringInjective(a: Key, b: Key)
    requires ':' !in a.scheme && ':' !in b.scheme
    requires KeyString(a) == KeyString(b)
    ensures a == b
  {
    var s := KeyString(a);
    var m, n := |a.scheme|, |b.scheme|;
    // the first ':' of the printed key sits right after the scheme, for either key
    assert s[m] == ':' && s[n] == ':';
    assert forall i :: 0 <= i < m ==> s[i] == a.scheme[i] && s[i] != ':';
    assert forall i :: 0 <= i < n ==> s[i] == b.scheme[i] && s[i] != ':';
    assert m == n;
    assert a.scheme == s[..m] == b.scheme;
    assert a.authority == s[m + 3..] == b.authority;
  }
}
