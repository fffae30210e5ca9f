/** Reading back the parts of the URLs the routes build: the scheme before
    "://", the authority up to the next '/', '?' or '#' (section 3.2 of
    RFC 3986), and everything after it (path, query and fragment). */
module Url {
  import opened Http

  datatype Parts = Parts(scheme: string, authority: string, path: string)

  /** The characters that end the authority of a URL. */
  const AuthorityEnds: set<char> := {'/', '?', '#'}

  /** `s` can stand as a whole authority: none of its characters ends one. */
  predicate IsAuthorityText(s: string) {
    forall i :: 0 <= i < |s| ==> s[i] !in AuthorityEnds
  }

  /** The index of the first character of `s` in `stops`, or |s| when there
      is none. */
  function Find(s: string, stops: set<char>): (k: nat)
    ensures k <= |s|
    ensures forall i :: 0 <= i < k ==> s[i] !in stops
    ensures k < |s| ==> s[k] in stops
  {
    if s == [] then 0 else if s[0] in stops then 0 else 1 + Find(s[1..], stops)
  }

  /** Splits `scheme://authority` followed by the rest of the URL; None when
      there is no "://" after the first ':'. */
  function Split(url: string): Option<Parts> {
    var i := Find(url, {':'});
    if i + 3 <= |url| && url[i..i + 3] == "://" then
      var rest := url[i + 3..];
      var j := Find(rest, AuthorityEnds);
      Some(Parts(url[..i], rest[..j], rest[j..]))
    else None
  }

  /** Splitting undoes joining, for a scheme without ':', an authority
      without '/', '?' or '#', and a rest that is empty or starts with one
      of those. */
  lemma {:induction false} SplitJoin(scheme: string, host: string, path: string)
    requires ':' !in scheme && IsAuthorityText(host)
    requires path == [] || path[0] in AuthorityEnds
    ensures Split(scheme + "://" + host + path) == Some(Parts(scheme, host, path))
  {
    var url := scheme + "://" + host + path;
    FindFirst(scheme, "://" + host + path, {':'});
    assert url[|scheme|..|scheme| + 3] == "://";
    var rest := url[|scheme| + 3..];
    assert url[..|scheme|] == scheme;
    assert rest == host + path;
    if path == [] {
      FindAbsent(host, AuthorityEnds);
      assert rest == host;
      assert rest[..|host|] == host && rest[|host|..] == [];
    } else {
      FindFirst(host, path, AuthorityEnds);
      assert rest[..|host|] == host && rest[|host|..] == path;
    }
  }

  /** No character of `s` is in `stops`, so Find runs to the end. */
  lemma {:induction false} FindAbsent(s: string, stops: set<char>)
    requires forall i :: 0 <= i < |s| ==> s[i] !in stops
    ensures Find(s, stops) == |s|
  {
    if s != [] {
      assert s[0] !in stops;
      FindAbsent(s[1..], stops);
    }
  }

  /** Find stops at the first character of `b` when `a` holds no stop. */
  lemma {:induction false} FindFirst(a: string, b: string, stops: set<char>)
    requires forall i :: 0 <= i < |a| ==> a[i] !in stops
    requires b != [] && b[0] in stops
    ensures Find(a + b, stops) == |a|
  {
    if a != [] {
      assert (a + b)[1..] == a[1..] + b;
      assert a[0] !in stops;
      FindFirst(a[1..], b, stops);
    } else {
      assert a + b == b;
    }
  }
}
