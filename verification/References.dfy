/** Stack references: an object's namespace and UID, their qualified name, and the name of its Secret. */
module References {
  import opened Options

  datatype Reference = Reference(namespace: string, uid: string)

  datatype SecretName = SecretName(namespace: string, name: string)

  /** The type of the resource that holds a stack's own outputs. */
  const STACK_TYPE := "pulumi:pulumi:Stack"

  // ----- qualified names, as Pulumi's tokens package defines them -----

  predicate NameChar(c: char) {
    'a' <= c <= 'z' || 'A' <= c <= 'Z' || '0' <= c <= '9' || c == '_' || c == '.' || c == '-'
  }

  predicate IsName(s: string) { |s| > 0 && forall i | 0 <= i < |s| :: NameChar(s[i]) }

  /** Names separated by single slashes. */
  predicate IsQName(s: string) {
    && |s| > 0
    && (forall i | 0 <= i < |s| :: NameChar(s[i]) || s[i] == '/')
    && s[0] != '/' && s[|s| - 1] != '/'
    && (forall i | 0 < i < |s| :: !(s[i - 1] == '/' && s[i] == '/'))
  }

  /** The position of the last slash, or -1. */
  function LastSlash(s: string): (k: int)
    ensures -1 <= k < |s|
    ensures k >= 0 ==> s[k] == '/'
    ensures forall i | k < i < |s| :: s[i] != '/'
  {
    if s == [] then -1
    else if s[|s| - 1] == '/' then |s| - 1
    else LastSlash(s[..|s| - 1])
  }

  // ----- references -----

  function QName(r: Reference): string { r.namespace + "/" + r.uid }

  function Parse(s: string): Option<Reference> {
    if !IsQName(s) then None
    else
      var k := LastSlash(s);
      Some(if k < 0 then Reference("", s) else Reference(s[..k], s[k + 1..]))
  }

  function SecretNameOf(r: Reference): SecretName { SecretName(r.namespace, "pulumi-" + r.uid) }

  // ----- results -----

  lemma LastSlashOfQName(r: Reference)
    requires forall i | 0 <= i < |r.uid| :: r.uid[i] != '/'
    ensures LastSlash(QName(r)) == |r.namespace|
  {
    var s, k := QName(r), LastSlash(QName(r));
    assert s[|r.namespace|] == '/';
    assert forall i | |r.namespace| < i < |s| :: s[i] == r.uid[i - |r.namespace| - 1];
  }

  lemma QNameParts(r: Reference)
    requires IsQName(QName(r)) && forall i | 0 <= i < |r.uid| :: r.uid[i] != '/'
    ensures IsQName(r.namespace) && IsName(r.uid)
  {
    var s, n := QName(r), |r.namespace|;
    assert s[n] == '/' && n > 0 && s[n - 1] != '/' && |r.uid| > 0;
    forall i | 0 <= i < n ensures r.namespace[i] == s[i] {}
    forall i | 0 <= i < |r.uid| ensures NameChar(r.uid[i]) { assert s[n + 1 + i] == r.uid[i]; }
  }

  lemma QNameOfParts(r: Reference)
    requires IsQName(r.namespace) && IsName(r.uid)
    ensures IsQName(QName(r))
  {
    var s, n := QName(r), |r.namespace|;
    forall i | 0 <= i < |s|
      ensures s[i] == if i < n then r.namespace[i] else if i == n then '/' else r.uid[i - n - 1]
    {}
  }

  lemma QNameShape(r: Reference)
    requires forall i | 0 <= i < |r.uid| :: r.uid[i] != '/'
    ensures IsQName(QName(r)) <==> IsQName(r.namespace) && IsName(r.uid)
  {
    if IsQName(QName(r)) { QNameParts(r); }
    if IsQName(r.namespace) && IsName(r.uid) { QNameOfParts(r); }
  }

  /** Parsing a reference's qualified name gives the reference back exactly when the namespace is itself a
      qualified name and the UID a name. */
  lemma ReferenceRoundTrip(r: Reference)
    ensures Parse(QName(r)) == Some(r) <==> IsQName(r.namespace) && IsName(r.uid)
  {
    var s, n := QName(r), |r.namespace|;
    if forall i | 0 <= i < |r.uid| :: r.uid[i] != '/' {
      LastSlashOfQName(r);
      QNameShape(r);
      assert s[..n] == r.namespace && s[n + 1..] == r.uid;
    }
  }

  /** What a text parses to: everything up to the last slash is the namespace. */
  lemma ParsedParts(s: string)
    requires Parse(s).Some?
    ensures var r := Parse(s).value;
            '/' !in r.uid && if '/' in s then s == r.namespace + "/" + r.uid else r == Reference("", s)
  {
    var k := LastSlash(s);
    if k >= 0 {
      assert s == s[..k] + "/" + s[k + 1..];
      assert s[k] in s;
    }
  }

  lemma NameChars(s: string)
    ensures (forall i | 0 <= i < |s| :: NameChar(s[i]) || s[i] == '/') <==> forall c | c in s :: NameChar(c) || c == '/'
  {
    if forall c | c in s :: NameChar(c) || c == '/' {
      forall i | 0 <= i < |s| ensures NameChar(s[i]) || s[i] == '/' { assert s[i] in s; }
    }
  }

  /** Which texts parse, character by character. */
  lemma ParsesExactly(s: string)
    ensures Parse(s).Some? <==>
            && s != "" && s[0] != '/' && s[|s| - 1] != '/' && (forall i | 0 < i < |s| :: s[i - 1] != '/' || s[i] != '/')
            && forall c | c in s :: 'a' <= c <= 'z' || 'A' <= c <= 'Z' || '0' <= c <= '9' ||
                                    c == '_' || c == '.' || c == '-' || c == '/'
  {
    NameChars(s);
  }

  /** In the other direction a parsed name is restored exactly when it had a slash: a bare name parses as
      an empty namespace, whose qualified name starts with a slash. */
  lemma NameRoundTrip(s: string)
    requires IsQName(s)
    ensures QName(Parse(s).value) == s <==> '/' in s
  {
    var k := LastSlash(s);
    if k >= 0 {
      assert s == s[..k] + "/" + s[k + 1..];
      assert s[k] in s;
    } else {
      assert QName(Parse(s).value)[0] == '/';
    }
  }

  /** A cluster-scoped object, which has no namespace, cannot be looked up by name. */
  lemma ClusterScopedNeverParses(uid: string)
    ensures Parse(QName(Reference("", uid))) == None
  {
    assert QName(Reference("", uid))[0] == '/';
  }

  /** In particular for what the API server allows: namespaces and UIDs of lower-case letters, digits and hyphens. */
  lemma KubernetesReferencesRoundTrip(r: Reference)
    requires r.namespace != "" && r.uid != ""
    requires forall c | c in r.namespace + r.uid :: 'a' <= c <= 'z' || '0' <= c <= '9' || c == '-'
    ensures Parse(QName(r)) == Some(r)
  {
    forall k | 0 <= k < |r.namespace| ensures NameChar(r.namespace[k]) && r.namespace[k] != '/' {
      assert r.namespace[k] in r.namespace + r.uid;
    }
    forall k | 0 <= k < |r.uid| ensures NameChar(r.uid[k]) { assert r.uid[k] in r.namespace + r.uid; }
    ReferenceRoundTrip(r);
  }

  /** An object's Secret lies in its own namespace and is named for its UID. */
  lemma SecretNameShape(r: Reference)
    ensures SecretNameOf(r).namespace == r.namespace
    ensures |SecretNameOf(r).name| >= 7 && SecretNameOf(r).name[..7] == "pulumi-" && SecretNameOf(r).name[7..] == r.uid
  {
  }

  /** Distinct objects never share a Secret. */
  lemma SecretNamesAreDistinct(r: Reference, q: Reference)
    requires SecretNameOf(r) == SecretNameOf(q)
    ensures r == q
  {
    var x, y := "pulumi-" + r.uid, "pulumi-" + q.uid;
    assert r.uid == x[7..] && q.uid == y[7..];
  }

  /** Qualified names of objects whose UIDs hold no slash are distinct too. */
  lemma QNamesAreDistinct(r: Reference, q: Reference)
    requires QName(r) == QName(q) && '/' !in r.uid && '/' !in q.uid
    ensures r == q
  {
    LastSlashOfQName(r);
    LastSlashOfQName(q);
    var s, n := QName(r), |r.namespace|;
    assert s[..n] == r.namespace && s[n + 1..] == r.uid;
    assert s[..n] == q.namespace && s[n + 1..] == q.uid;
  }
}
