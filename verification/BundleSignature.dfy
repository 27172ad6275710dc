/** Detached signatures over a bundle's canonical reference. */
module BundleSignature {
  import opened Prelude
  import opened CanonicalRef

  datatype Signature = Signature(canonicalRef: string, bundleHash: string, signature: string, publicKey: string,
      signedAt: string)

  /** The parsed `signature.json`, after its shape was examined (the algorithm is pinned there). */
  datatype RawSignature = Malformed | WellFormed(sig: Signature)

  datatype Keypair = Keypair(sign: string -> string, publicKeyPem: string)

  /** Message, signature and public key, in this order. */
  type Verifier = (string, string, string) -> bool

  datatype Reason = MalformedSignature | HashMismatch | RefMismatch | WrongKey | BadSignature

  datatype Verdict = Valid(canonicalRef: string, bundleHash: string) | Invalid(reason: Reason)

  /** The verifier accepts what the key pair signs. */
  ghost predicate Accepts(verify: Verifier, keys: Keypair) {
    forall m :: verify(m, keys.sign(m), keys.publicKeyPem)
  }

  // -------------------------------------------------------------------- keys

  function WithoutCarriageReturns(s: string): string {
    if |s| >= 2 && s[0] == '\r' && s[1] == '\n' then ['\n'] + WithoutCarriageReturns(s[2..])
    else if s == "" then ""
    else [s[0]] + WithoutCarriageReturns(s[1..])
  }

  /** The white space and line ends that `trim` removes. */
  predicate IsSpace(c: char) {
    var n := c as int;
    0x9 <= n <= 0xD || n == 0x20 || n == 0xA0 || n == 0x1680 || 0x2000 <= n <= 0x200A || n == 0x2028 || n == 0x2029
    || n == 0x202F || n == 0x205F || n == 0x3000 || n == 0xFEFF
  }

  function TrimStart(s: string): string {
    if s != "" && IsSpace(s[0]) then TrimStart(s[1..]) else s
  }

  function TrimEnd(s: string): string {
    if s != "" && IsSpace(s[|s| - 1]) then TrimEnd(s[..|s| - 1]) else s
  }

  function NormalizePem(pem: string): string {
    TrimEnd(TrimStart(WithoutCarriageReturns(pem)))
  }

  /** The same text with the other line ends. */
  ghost function WithCarriageReturns(s: string): string {
    if s == "" then "" else (if s[0] == '\n' then "\r\n" else [s[0]]) + WithCarriageReturns(s[1..])
  }

  lemma {:induction false} CarriageReturnsUndone(s: string)
    requires '\r' !in s
    ensures WithoutCarriageReturns(WithCarriageReturns(s)) == s && WithoutCarriageReturns(s) == s
  {
    if s != "" {
      CarriageReturnsUndone(s[1..]);
      var rest := WithCarriageReturns(s[1..]);
      if s[0] == '\n' {
        assert ("\r\n" + rest)[2..] == rest;
      } else {
        assert ([s[0]] + rest)[1..] == rest;
      }
    }
  }

  /** A key is the same key whichever line ends it is written with. */
  lemma {:induction false} LineEndsDoNotMatter(pem: string)
    requires '\r' !in pem
    ensures NormalizePem(WithCarriageReturns(pem)) == NormalizePem(pem)
  {
    CarriageReturnsUndone(pem);
  }

  /** Each CRLF becomes one newline, and nothing else changes. */
  lemma {:induction false} EachLineEnd(a: string, b: string)
    ensures WithoutCarriageReturns(a + "\r\n" + b) == WithoutCarriageReturns(a) + "\n" + WithoutCarriageReturns(b)
    decreases |a|
  {
    var s := a + "\r\n" + b;
    if a == "" {
      assert s[2..] == b;
    } else if |a| >= 2 && a[0] == '\r' && a[1] == '\n' {
      assert s[2..] == a[2..] + "\r\n" + b;
      EachLineEnd(a[2..], b);
    } else {
      assert s[1..] == a[1..] + "\r\n" + b;
      EachLineEnd(a[1..], b);
    }
  }

  lemma {:induction false} OtherTextStays(s: string)
    requires forall i :: 0 <= i < |s| - 1 && s[i] == '\r' ==> s[i + 1] != '\n'
    ensures WithoutCarriageReturns(s) == s
  {
    if s != "" {
      forall i | 0 <= i < |s[1..]| - 1 && s[1..][i] == '\r' ensures s[1..][i + 1] != '\n' {
        assert s[i + 1] == '\r';
      }
      OtherTextStays(s[1..]);
    }
  }

  /** White space and line terminators as ECMAScript lists them, sections 12.2 and 12.3 of ECMA-262. */
  const WHITE_SPACE: string :=
    "\t\n\U{000B}\U{000C}\r \U{00A0}\U{1680}\U{2000}\U{2001}\U{2002}\U{2003}\U{2004}\U{2005}\U{2006}\U{2007}" +
    "\U{2008}\U{2009}\U{200A}\U{2028}\U{2029}\U{202F}\U{205F}\U{3000}\U{FEFF}"

  predicate White(c: char) {
    c in WHITE_SPACE
  }

  /** `core` is the text from `i` to `j`: only white space around it, none at its ends. */
  ghost predicate CutAt(s: string, core: string, i: nat, j: nat) {
    && i <= j <= |s| && core == s[i..j]
    && (forall k :: 0 <= k < i ==> White(s[k])) && (forall k :: j <= k < |s| ==> White(s[k]))
    && (i < j ==> !White(s[i]) && !White(s[j - 1]))
  }

  /** `core` is the text without its outer white space. */
  ghost predicate Trimmed(s: string, core: string) {
    exists i: nat, j: nat :: CutAt(s, core, i, j)
  }

  /** Two keys are the same text but for line ends and outer white space. */
  ghost predicate SameKey(a: string, b: string) {
    exists core :: Trimmed(WithoutCarriageReturns(a), core) && Trimmed(WithoutCarriageReturns(b), core)
  }

  lemma {:induction false} SpaceIsListed(c: char)
    ensures IsSpace(c) <==> White(c)
  {
    assert WHITE_SPACE[..6] == "\t\n\U{000B}\U{000C}\r ";
  }

  lemma {:induction false} TrimStartCuts(s: string) returns (i: nat)
    ensures i <= |s| && TrimStart(s) == s[i..] && (forall k :: 0 <= k < i ==> White(s[k]))
    ensures i < |s| ==> !White(s[i])
  {
    i := 0;
    if s != "" {
      SpaceIsListed(s[0]);
      if IsSpace(s[0]) {
        i := TrimStartCuts(s[1..]);
        i := i + 1;
        assert forall k :: 0 < k <= |s[1..]| ==> s[k] == s[1..][k - 1];
      }
    }
  }

  lemma {:induction false} TrimEndCuts(s: string) returns (j: nat)
    ensures j <= |s| && TrimEnd(s) == s[..j] && (forall k :: j <= k < |s| ==> White(s[k]))
    ensures j > 0 ==> !White(s[j - 1])
  {
    j := |s|;
    if s != "" {
      var n := |s| - 1;
      SpaceIsListed(s[n]);
      if IsSpace(s[n]) {
        j := TrimEndCuts(s[..n]);
        assert forall k :: 0 <= k < n ==> s[k] == s[..n][k];
      }
    }
  }

  lemma {:induction false} TrimTrims(s: string)
    ensures Trimmed(s, TrimEnd(TrimStart(s)))
  {
    var i := TrimStartCuts(s);
    var j := TrimEndCuts(s[i..]);
    forall k | i + j <= k < |s| ensures White(s[k]) {
      assert s[k] == s[i..][k - i];
    }
    var rest := s[i..];
    assert rest[..j] == s[i..i + j];
    assert j > 0 ==> s[i + j - 1] == rest[j - 1];
    assert CutAt(s, TrimEnd(rest), i, i + j);
  }

  /** There is only one way to take outer white space away. */
  lemma {:induction false} TrimmedOneWay(s: string, a: string, b: string)
    requires Trimmed(s, a) && Trimmed(s, b)
    ensures a == b
  {
    var i: nat, j: nat :| CutAt(s, a, i, j);
    var m: nat, n: nat :| CutAt(s, b, m, n);
    assert i < j ==> m <= i && j <= n;
    assert m < n ==> i <= m && n <= j;
  }

  /** Normalised texts are equal exactly when the keys agree but for line ends and outer white space. */
  lemma {:induction false} NormalizedAlike(a: string, b: string)
    ensures NormalizePem(a) == NormalizePem(b) <==> SameKey(a, b)
  {
    var s, t := WithoutCarriageReturns(a), WithoutCarriageReturns(b);
    TrimTrims(s);
    TrimTrims(t);
    if SameKey(a, b) {
      var core :| Trimmed(s, core) && Trimmed(t, core);
      TrimmedOneWay(s, core, NormalizePem(a));
      TrimmedOneWay(t, core, NormalizePem(b));
    }
  }

  predicate Bare(s: string) {
    s != "" ==> !White(s[0]) && !White(s[|s| - 1])
  }

  /** Keys without carriage returns and outer white space are the same only when the texts are. */
  lemma {:induction false} PlainKeysCompareAsTexts(a: string, b: string)
    requires '\r' !in a && '\r' !in b && Bare(a) && Bare(b)
    ensures SameKey(a, b) <==> a == b
  {
    OtherTextStays(a);
    OtherTextStays(b);
    assert CutAt(a, a, 0, |a|) && CutAt(b, b, 0, |b|);
    assert a == b ==> Trimmed(WithoutCarriageReturns(a), a) && Trimmed(WithoutCarriageReturns(b), a);
    if SameKey(a, b) {
      var core :| Trimmed(a, core) && Trimmed(b, core);
      TrimmedOneWay(a, core, a);
      TrimmedOneWay(b, core, b);
    }
  }

  ghost predicate KeyExpected(expected: Option<string>, publicKey: string) {
    expected.None? || SameKey(expected.value, publicKey)
  }

  // ------------------------------------------------------------- sign, verify

  ghost function SignatureOf(hex: Hasher, files: map<string, string>, keys: Keypair, now: string): Signature {
    var hash := hex(Manifest(hex, files));
    Signature(RUN_PREFIX + hash, hash, keys.sign(RUN_PREFIX + hash), keys.publicKeyPem, now)
  }

  method SignBundle(hex: Hasher, files: map<string, string>, keys: Keypair, now: string)
    returns (r: Result<Signature, RefError>)
    requires Hexadecimal(hex)
    ensures r == Success(SignatureOf(hex, files, keys, now))
  {
    var hash := BundleHash(hex, files);
    HexIsBare(hash);
    match MakeRunRef(hash)
    case Failure(e) =>
      r := Failure(e);
    case Success(ref) =>
      r := Success(Signature(ref, hash, keys.sign(ref), keys.publicKeyPem, now));
  }

  /** What an accepted signature says of the bundle. */
  ghost predicate Attests(hex: Hasher, verify: Verifier, files: map<string, string>, sig: Signature) {
    && sig.bundleHash == hex(Manifest(hex, files))
    && ParseRunRef(sig.canonicalRef) == Success(sig.bundleHash)
    && verify(sig.canonicalRef, sig.signature, sig.publicKey)
  }

  /** The signature has the bundle's hash, and its reference is, or is not, that of the hash. */
  ghost predicate RefIs(hex: Hasher, files: map<string, string>, sig: Signature, right: bool) {
    sig.bundleHash == hex(Manifest(hex, files)) && (ParseRunRef(sig.canonicalRef) == Success(sig.bundleHash) <==> right)
  }

  /**
   * A bundle is accepted exactly when the signature is well-formed, attests to
   * it and comes from the expected key; the first failing step gives the reason.
   */
  method VerifyBundle(hex: Hasher, verify: Verifier, files: map<string, string>, raw: RawSignature,
      expected: Option<string>)
    returns (v: Verdict)
    requires Hexadecimal(hex)
    ensures v.Valid? <==>
      raw.WellFormed? && Attests(hex, verify, files, raw.sig) && KeyExpected(expected, raw.sig.publicKey)
    ensures v.Valid? ==>
      v.bundleHash == hex(Manifest(hex, files)) && ParseRunRef(v.canonicalRef) == Success(v.bundleHash)
    ensures v == Invalid(MalformedSignature) <==> raw.Malformed?
    ensures v == Invalid(HashMismatch) <==> raw.WellFormed? && raw.sig.bundleHash != hex(Manifest(hex, files))
    ensures v == Invalid(RefMismatch) <==> raw.WellFormed? && RefIs(hex, files, raw.sig, false)
    ensures v == Invalid(WrongKey) <==>
      raw.WellFormed? && RefIs(hex, files, raw.sig, true) && !KeyExpected(expected, raw.sig.publicKey)
    ensures v == Invalid(BadSignature) <==>
      && raw.WellFormed? && RefIs(hex, files, raw.sig, true) && KeyExpected(expected, raw.sig.publicKey)
      && !verify(raw.sig.canonicalRef, raw.sig.signature, raw.sig.publicKey)
  {
    if raw.Malformed? {
      return Invalid(MalformedSignature);
    }
    var sig := raw.sig;
    var recomputed := BundleHash(hex, files);
    if recomputed != sig.bundleHash {
      return Invalid(HashMismatch);
    }
    RunRefRoundTrip(sig.canonicalRef, sig.bundleHash);
    if MakeRunRef(sig.bundleHash) != Success(sig.canonicalRef) {
      return Invalid(RefMismatch);
    }
    if expected.Some? {
      NormalizedAlike(expected.value, sig.publicKey);
    }
    if expected.Some? && NormalizePem(expected.value) != NormalizePem(sig.publicKey) {
      return Invalid(WrongKey);
    }
    if !verify(sig.canonicalRef, sig.signature, sig.publicKey) {
      return Invalid(BadSignature);
    }
    return Valid(sig.canonicalRef, sig.bundleHash);
  }

  /** The two bundles hold the same files, the derived ones aside. */
  ghost predicate SameContent(f: map<string, string>, g: map<string, string>) {
    forall p :: !Derived(p) ==> (p in f <==> p in g) && (p in f ==> f[p] == g[p])
  }

  /** No two of the texts share a digest. */
  ghost predicate NoCollision(hex: Hasher, texts: set<string>) {
    forall x, y :: x in texts && y in texts && hex(x) == hex(y) ==> x == y
  }

  ghost function Hashed(hex: Hasher, f: map<string, string>, g: map<string, string>): set<string> {
    f.Values + g.Values + {Manifest(hex, f), Manifest(hex, g)}
  }

  lemma {:induction false} SameContentSameDigests(hex: Hasher, f: map<string, string>, g: map<string, string>)
    requires SameContent(f, g)
    ensures Digests(hex, f) == Digests(hex, g)
  {
    assert Digests(hex, f).Keys == Digests(hex, g).Keys;
  }

  lemma {:induction false} SameDigestsSameContent(hex: Hasher, f: map<string, string>, g: map<string, string>)
    requires NoCollision(hex, Hashed(hex, f, g)) && Digests(hex, f) == Digests(hex, g)
    ensures SameContent(f, g)
  {
    var d, e := Digests(hex, f), Digests(hex, g);
    forall p | !Derived(p) ensures (p in f <==> p in g) && (p in f ==> f[p] == g[p]) {
      assert p in d <==> p in f;
      assert p in e <==> p in g;
      if p in f {
        assert d[p] == e[p];
        assert d[p][|SHA_PREFIX|..] == hex(f[p]) && e[p][|SHA_PREFIX|..] == hex(g[p]);
        assert f[p] in f.Values && g[p] in g.Values;
      }
    }
  }

  /**
   * A signature made for one bundle verifies another exactly when the two have
   * the same content: adding the signature and reference files changes nothing,
   * and any other change is refused, as long as paths are one line each and no
   * two of the hashed texts collide.
   */
  lemma {:induction false} SignedContentOnly(hex: Hasher, verify: Verifier, keys: Keypair, now: string,
      signed: map<string, string>, other: map<string, string>)
    requires Hexadecimal(hex) && Accepts(verify, keys)
    ensures SameContent(signed, other) ==> Attests(hex, verify, other, SignatureOf(hex, signed, keys, now))
    ensures PlainPaths(signed) && PlainPaths(other) && NoCollision(hex, Hashed(hex, signed, other)) ==>
      (Attests(hex, verify, other, SignatureOf(hex, signed, keys, now)) <==> SameContent(signed, other))
  {
    var hash := hex(Manifest(hex, signed));
    RunRefRoundTrip(RUN_PREFIX + hash, hash);
    HexIsBare(hash);
    var sig := SignatureOf(hex, signed, keys, now);
    if SameContent(signed, other) {
      SameContentSameDigests(hex, signed, other);
    }
    if PlainPaths(signed) && PlainPaths(other) && NoCollision(hex, Hashed(hex, signed, other)) &&
      Attests(hex, verify, other, sig) {
      OneSignatureOneContent(hex, verify, sig, signed, other);
    }
  }

  /** Whoever made it, one signature attests to one content. */
  lemma {:induction false} OneSignatureOneContent(hex: Hasher, verify: Verifier, sig: Signature,
      f: map<string, string>, g: map<string, string>)
    requires Hexadecimal(hex) && PlainPaths(f) && PlainPaths(g) && NoCollision(hex, Hashed(hex, f, g))
    requires Attests(hex, verify, f, sig) && Attests(hex, verify, g, sig)
    ensures SameContent(f, g)
  {
    ManifestDeterminesDigests(hex, f, g);
    SameDigestsSameContent(hex, f, g);
  }

  /** Adding the two derived files to a bundle keeps its content. */
  lemma {:induction false} DerivedFilesMayBeAdded(files: map<string, string>, signatureText: string, refText: string)
    ensures SameContent(files, files[SIGNATURE_FILE := signatureText][CANONICAL_REF_FILE := refText])
  {
  }

  /**
   * Without the one-line condition this fails for every bundle of two files or more: some other
   * content carries the same signature.
   */
  lemma {:induction false} NewlinePathsShareASignature(hex: Hasher, verify: Verifier, sig: Signature,
      f: map<string, string>)
    returns (g: map<string, string>)
    requires Hexadecimal(hex) && Attests(hex, verify, f, sig) && |Digests(hex, f)| > 1
    ensures Attests(hex, verify, g, sig) && !SameContent(f, g)
  {
    g := MergedBundle(hex, f);
    if SameContent(f, g) {
      SameContentSameDigests(hex, f, g);
    }
  }
}
