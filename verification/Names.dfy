/** Load balancer names generated from cluster names. */
module Names {

  const MAX_NAME_LENGTH := 64
  const SUFFIX := "-api"

  predicate IsNameChar(c: char) {
    'a' <= c <= 'z' || '0' <= c <= '9' || c == '-'
  }

  predicate IsClean(s: string) {
    forall c <- s :: IsNameChar(c)
  }

  /** Removes every maximal run of characters outside [a-z0-9-]. */
  function ClearString(s: string): (r: string)
    ensures IsClean(r) && |r| <= |s|
    ensures IsClean(s) ==> r == s
  {
    if s == [] then []
    else if IsNameChar(s[0]) then [s[0]] + ClearString(s[1..])
    else ClearString(s[1..])
  }

  /** A removed character leaves no trace, wherever it stands. With clean strings unchanged, this
      decides the result for every input. */
  lemma {:induction false} RemovedCharactersLeaveNoTrace(a: string, c: char, b: string)
    requires !IsNameChar(c)
    ensures ClearString(a + [c] + b) == ClearString(a + b)
  {
    if a == [] {
      assert a + [c] + b == [c] + b && ([c] + b)[1..] == b && a + b == b;
    } else {
      RemovedCharactersLeaveNoTrace(a[1..], c, b);
      assert (a + [c] + b)[1..] == a[1..] + [c] + b && (a + b)[1..] == a[1..] + b;
    }
  }

  /** A SHA-256 digest printed in hexadecimal. */
  predicate IsDigest(d: string) {
    |d| == 64 && forall c <- d :: 'a' <= c <= 'f' || '0' <= c <= '9'
  }

  /** The owning Cluster's name together with the digest of that name. */
  datatype Owner = Owner(name: string, digest: string)

  predicate FitsUnhashed(name: string) {
    |ClearString(name)| + |SUFFIX| < MAX_NAME_LENGTH
  }

  function GenerateName(o: Owner): (r: string)
    requires IsDigest(o.digest)
    ensures 4 <= |r| <= 63 && IsClean(r) && r[|r| - 4..] == SUFFIX
  {
    if FitsUnhashed(o.name) then ClearString(o.name) + SUFFIX
    else
      assert forall c <- o.digest[..16] :: c in o.digest;
      assert IsClean("cluster-") && IsClean(o.digest[..16]) && IsClean(SUFFIX);
      "cluster-" + o.digest[..16] + SUFFIX
  }

  /** The name given in the spec wins over the generated one. */
  function LoadBalancerName(specName: string, generated: string): string {
    if specName == "" then generated else specName
  }

  /** Two clusters whose names need no hashing share a load balancer name exactly
      when their names differ in removed characters only. */
  lemma ShortNamesCollideExactly(a: Owner, b: Owner)
    requires IsDigest(a.digest) && IsDigest(b.digest)
    requires FitsUnhashed(a.name) && FitsUnhashed(b.name)
    ensures GenerateName(a) == GenerateName(b) <==> ClearString(a.name) == ClearString(b.name)
  {
    var x, y := ClearString(a.name), ClearString(b.name);
    if x + SUFFIX == y + SUFFIX {
      assert x == (x + SUFFIX)[..|x|] && y == (y + SUFFIX)[..|y|];
    }
  }

  /** Two clusters whose names are hashed share a load balancer name exactly when the first
      sixteen digits of their digests agree. */
  lemma LongNamesCollideExactly(a: Owner, b: Owner)
    requires IsDigest(a.digest) && IsDigest(b.digest)
    requires !FitsUnhashed(a.name) && !FitsUnhashed(b.name)
    ensures GenerateName(a) == GenerateName(b) <==> forall i | 0 <= i < 16 :: a.digest[i] == b.digest[i]
    ensures |GenerateName(a)| == 28 && GenerateName(a)[..8] == "cluster-"
  {
    var x, y := a.digest[..16], b.digest[..16];
    assert GenerateName(a)[8..24] == x && GenerateName(b)[8..24] == y;
    assert x == y <==> forall i | 0 <= i < 16 :: x[i] == y[i];
  }

  /** On clean names of at most 59 characters the generated name determines the cluster. */
  lemma CleanNamesAreInjective(a: Owner, b: Owner)
    requires IsDigest(a.digest) && IsDigest(b.digest)
    requires IsClean(a.name) && IsClean(b.name) && |a.name| <= 59 && |b.name| <= 59
    requires GenerateName(a) == GenerateName(b)
    ensures a.name == b.name
  {
    ShortNamesCollideExactly(a, b);
  }

  /** Names with a dot are legal cluster names, and the dot is lost: two distinct
      clusters of one folder can be given the same load balancer name. */
  lemma DottedNamesCollide(d: string)
    requires IsDigest(d)
    ensures GenerateName(Owner("a.b", d)) == GenerateName(Owner("ab", d)) == "ab-api"
  {
    assert ClearString("ab") == "ab";
    assert "a.b"[1..] == ".b" && ".b"[1..] == "b";
    assert ClearString("b") == "b";
    assert ClearString(".b") == "b";
    assert ClearString("a.b") == "ab";
  }
}
