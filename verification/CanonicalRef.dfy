/** Content-addressed run references, and the manifest a bundle is hashed from. */
module CanonicalRef {
  import opened Prelude
  import opened Text

  const RUN_PREFIX := "calane://run/"
  const SHA_PREFIX := "sha256:"
  const SIGNATURE_FILE := "signature.json"
  const CANONICAL_REF_FILE := "canonical_ref.txt"

  predicate IsHexHash(s: string) {
    |s| == 64 && forall i :: 0 <= i < 64 ==> '0' <= s[i] <= '9' || 'a' <= s[i] <= 'f'
  }

  /** The hex digest of a text under sha256. */
  type Hasher = string -> string

  /** All that is known of sha256. */
  ghost predicate Hexadecimal(hex: Hasher) {
    forall text :: IsHexHash(hex(text))
  }

  function Sha256(hex: Hasher, text: string): string {
    SHA_PREFIX + hex(text)
  }

  predicate StartsWith(s: string, prefix: string) {
    |prefix| <= |s| && s[..|prefix|] == prefix
  }

  function StripSha256Prefix(hash: string): string {
    if StartsWith(hash, SHA_PREFIX) then hash[|SHA_PREFIX|..] else hash
  }

  datatype RefError = InvalidHash(hash: string) | NotARunRef(ref: string) | MalformedHash(ref: string)

  function MakeRunRef(hash: string): Result<string, RefError> {
    var bare := StripSha256Prefix(hash);
    if IsHexHash(bare) then Success(RUN_PREFIX + bare) else Failure(InvalidHash(hash))
  }

  function ParseRunRef(ref: string): Result<string, RefError> {
    if !StartsWith(ref, RUN_PREFIX) then Failure(NotARunRef(ref))
    else
      var hash := ref[|RUN_PREFIX|..];
      if IsHexHash(hash) then Success(hash) else Failure(MalformedHash(ref))
  }

  lemma {:induction false} HexIsBare(hash: string)
    requires IsHexHash(hash)
    ensures StripSha256Prefix(hash) == hash && StripSha256Prefix(SHA_PREFIX + hash) == hash
  {
    assert !('0' <= SHA_PREFIX[1] <= '9' || 'a' <= SHA_PREFIX[1] <= 'f');
    assert |hash| >= |SHA_PREFIX| ==> hash[..|SHA_PREFIX|][1] == hash[1];
    assert (SHA_PREFIX + hash)[..|SHA_PREFIX|] == SHA_PREFIX;
  }

  /**
   * Making and parsing references are inverse: parsing accepts exactly what making returns, from the
   * bare or the prefixed hash.
   */
  lemma {:induction false} RunRefRoundTrip(ref: string, hash: string)
    ensures ParseRunRef(ref) == Success(hash) <==> IsHexHash(hash) && MakeRunRef(hash) == Success(ref)
    ensures ParseRunRef(ref) == Success(hash) ==> MakeRunRef(SHA_PREFIX + hash) == Success(ref)
    ensures MakeRunRef(hash) == Success(ref) ==> ParseRunRef(ref) == Success(StripSha256Prefix(hash))
  {
    if IsHexHash(hash) {
      HexIsBare(hash);
    }
    assert StartsWith(ref, RUN_PREFIX) ==> ref == RUN_PREFIX + ref[|RUN_PREFIX|..];
    forall bare: string
      ensures StartsWith(RUN_PREFIX + bare, RUN_PREFIX) && (RUN_PREFIX + bare)[|RUN_PREFIX|..] == bare
    {
      assert (RUN_PREFIX + bare)[..|RUN_PREFIX|] == RUN_PREFIX;
    }
  }

  // ---------------------------------------------------------------- manifest

  /** The files derived from the hash, which it leaves out. */
  predicate Derived(path: string) {
    path == SIGNATURE_FILE || path == CANONICAL_REF_FILE
  }

  function Line(path: string, digest: string): string {
    path + "\n" + digest
  }

  function Join(lines: seq<string>): string {
    if lines == [] then "" else if |lines| == 1 then lines[0] else lines[0] + "\n" + Join(lines[1..])
  }

  /** The lines of the manifest, from the digests of the files at `paths`. */
  ghost function DigestLines(digests: map<string, string>, paths: seq<string>): (lines: seq<string>)
    ensures |lines| == |paths|
  {
    if paths == [] then []
    else [LineOf(digests, paths[0])] + DigestLines(digests, paths[1..])
  }

  ghost function LineOf(digests: map<string, string>, path: string): string {
    Line(path, if path in digests then digests[path] else "")
  }

  ghost function ManifestText(digests: map<string, string>): string {
    Join(DigestLines(digests, SortedKeys(digests.Keys)))
  }

  /** What the manifest is meant to say: the digest of every file that is not derived. */
  ghost function Digests(hex: Hasher, files: map<string, string>): map<string, string> {
    map p | p in files.Keys && !Derived(p) :: Sha256(hex, files[p])
  }

  ghost function Manifest(hex: Hasher, files: map<string, string>): string {
    ManifestText(Digests(hex, files))
  }

  ghost function Kept(paths: seq<string>): seq<string> {
    if paths == [] then [] else (if Derived(paths[0]) then [] else [paths[0]]) + Kept(paths[1..])
  }

  lemma {:induction false} KeptIsSorted(s: set<string>, kept: set<string>)
    requires kept <= s
    requires forall p :: p in s ==> (p in kept <==> !Derived(p))
    ensures Kept(SortedKeys(s)) == SortedKeys(kept)
  {
    if s != {} {
      var k := Least(s);
      KeptIsSorted(s - {k}, kept - {k});
      if Derived(k) {
        assert kept - {k} == kept;
      } else {
        SortedStep(kept, k);
      }
    }
  }

  /** The hash of a bundle is the digest of its manifest, without prefix. */
  method BundleHash(hex: Hasher, files: map<string, string>) returns (hash: string)
    requires Hexadecimal(hex)
    ensures hash == hex(Manifest(hex, files))
  {
    var lines := ManifestLines(hex, files);
    var manifest := Join(lines);
    hash := StripSha256Prefix(Sha256(hex, manifest));
    HexIsBare(hex(manifest));
  }

  method ManifestLines(hex: Hasher, files: map<string, string>) returns (lines: seq<string>)
    ensures Join(lines) == Manifest(hex, files)
  {
    var paths := Sort(files.Keys);
    ghost var digests := Digests(hex, files);
    lines := [];
    for i := 0 to |paths|
      invariant lines + LinesFrom(digests, paths, i) == [] + LinesFrom(digests, paths, 0)
    {
      SortedMember(files.Keys, paths[i]);
      LinesStep(hex, files, lines, paths, i);
      if !Derived(paths[i]) {
        lines := lines + [Line(paths[i], Sha256(hex, files[paths[i]]))];
      }
    }
    AllLines(hex, files);
    assert lines + [] == lines;
  }

  /** The lines of the paths from position `i` on. */
  ghost function LinesFrom(digests: map<string, string>, paths: seq<string>, i: nat): seq<string>
    requires i <= |paths|
  {
    DigestLines(digests, Kept(paths[i..]))
  }

  lemma {:induction false} LinesFromStep(digests: map<string, string>, paths: seq<string>, i: nat)
    requires i < |paths|
    ensures LinesFrom(digests, paths, i) ==
            (if Derived(paths[i]) then [] else [LineOf(digests, paths[i])]) + LinesFrom(digests, paths, i + 1)
  {
    assert paths[i..][0] == paths[i] && paths[i..][1..] == paths[i + 1..];
    assert ([paths[i]] + Kept(paths[i + 1..]))[1..] == Kept(paths[i + 1..]);
    assert [] + Kept(paths[i + 1..]) == Kept(paths[i + 1..]);
  }

  lemma {:induction false} LinesStep(hex: Hasher, files: map<string, string>, lines: seq<string>, paths: seq<string>,
      i: nat)
    requires i < |paths| && paths[i] in files
    ensures var digests := Digests(hex, files);
      lines + LinesFrom(digests, paths, i) ==
      (if Derived(paths[i]) then lines else lines + [Line(paths[i], Sha256(hex, files[paths[i]]))]) +
        LinesFrom(digests, paths, i + 1)
  {
    var digests := Digests(hex, files);
    LinesFromStep(digests, paths, i);
    if !Derived(paths[i]) {
      Shift(lines, LineOf(digests, paths[i]), LinesFrom(digests, paths, i + 1));
    } else {
      assert [] + LinesFrom(digests, paths, i + 1) == LinesFrom(digests, paths, i + 1);
    }
  }

  lemma {:induction false} AllLines(hex: Hasher, files: map<string, string>)
    ensures var paths, digests := SortedKeys(files.Keys), Digests(hex, files);
      LinesFrom(digests, paths, |paths|) == [] && Join([] + LinesFrom(digests, paths, 0)) == ManifestText(digests)
  {
    var paths := SortedKeys(files.Keys);
    assert paths[0..] == paths;
    assert [] + LinesFrom(Digests(hex, files), paths, 0) == DigestLines(Digests(hex, files), Kept(paths));
    KeptIsSorted(files.Keys, Digests(hex, files).Keys);
  }

  lemma {:induction false} Shift<T>(xs: seq<T>, y: T, zs: seq<T>)
    ensures xs + ([y] + zs) == xs + [y] + zs
  {
  }

  // --------------------------------------------------------------- unambiguity

  predicate OneLine(s: string) {
    forall i :: 0 <= i < |s| ==> s[i] != '\n'
  }

  /** No path of a file that counts holds a newline. */
  ghost predicate PlainPaths(files: map<string, string>) {
    forall p :: p in files && !Derived(p) ==> OneLine(p)
  }

  ghost predicate DigestsAt(digests: map<string, string>, paths: seq<string>) {
    forall p :: p in paths ==> p in digests && |digests[p]| == |SHA_PREFIX| + 64
  }

  ghost predicate OneLineEach(paths: seq<string>) {
    forall p :: p in paths ==> OneLine(p)
  }

  lemma {:induction false} SplitAtNewline(a: string, x: string, b: string, y: string)
    requires a + "\n" + x == b + "\n" + y && OneLine(a) && OneLine(b)
    ensures a == b && x == y
  {
    var s, t := a + "\n" + x, b + "\n" + y;
    assert s[|a|] == '\n' && t[|b|] == '\n';
    assert s[..|a|] == a && t[..|b|] == b;
    assert !(|a| < |b|) && !(|b| < |a|);
    assert s[|a| + 1..] == x && t[|b| + 1..] == y;
  }

  /** The text that follows the first line. */
  ghost function AfterLine(d: map<string, string>, ps: seq<string>): string
    requires ps != []
  {
    if |ps| == 1 then "" else "\n" + Join(DigestLines(d, ps[1..]))
  }

  lemma {:induction false} JoinFirst(d: map<string, string>, ps: seq<string>)
    requires ps != [] && ps[0] in d
    ensures Join(DigestLines(d, ps)) == ps[0] + "\n" + (d[ps[0]] + AfterLine(d, ps))
  {
    var lines := DigestLines(d, ps);
    assert lines[1..] == DigestLines(d, ps[1..]);
    assert lines[0] == ps[0] + "\n" + d[ps[0]];
    if |ps| == 1 {
      assert d[ps[0]] + "" == d[ps[0]];
    } else {
      assert Join(lines) == lines[0] + "\n" + Join(lines[1..]);
      assert ps[0] + "\n" + d[ps[0]] + "\n" + Join(lines[1..]) == ps[0] + "\n" + (d[ps[0]] + ("\n" + Join(lines[1..])));
    }
  }

  /** The list of lines can be read back when every path is one line. */
  lemma {:induction false} LinesReadBack(d: map<string, string>, ps: seq<string>, e: map<string, string>,
      qs: seq<string>)
    requires DigestsAt(d, ps) && OneLineEach(ps) && DigestsAt(e, qs) && OneLineEach(qs)
    requires Join(DigestLines(d, ps)) == Join(DigestLines(e, qs))
    ensures ps == qs && forall p :: p in ps ==> d[p] == e[p]
  {
    if ps == [] {
      if qs != [] {
        JoinFirst(e, qs);
      }
    } else {
      JoinFirst(d, ps);
      if qs != [] {
        JoinFirst(e, qs);
        var p, q := ps[0], qs[0];
        var x, y := AfterLine(d, ps), AfterLine(e, qs);
        SplitAtNewline(p, d[p] + x, q, e[q] + y);
        assert (d[p] + x)[..|d[p]|] == d[p] && (e[q] + y)[..|d[p]|] == e[q];
        assert (d[p] + x)[|d[p]|..] == x && (e[q] + y)[|d[p]|..] == y;
        SameTail(d, ps, e, qs);
        LinesReadBack(d, ps[1..], e, qs[1..]);
        assert ps == [p] + ps[1..] && qs == [q] + qs[1..];
      }
    }
  }

  lemma {:induction false} SameTail(d: map<string, string>, ps: seq<string>, e: map<string, string>, qs: seq<string>)
    requires ps != [] && qs != [] && AfterLine(d, ps) == AfterLine(e, qs)
    ensures Join(DigestLines(d, ps[1..])) == Join(DigestLines(e, qs[1..]))
  {
    if |ps| > 1 && |qs| > 1 {
      assert AfterLine(d, ps)[1..] == Join(DigestLines(d, ps[1..]));
      assert AfterLine(e, qs)[1..] == Join(DigestLines(e, qs[1..]));
    }
  }

  lemma {:induction false} DigestsOfSorted(hex: Hasher, files: map<string, string>)
    requires Hexadecimal(hex)
    ensures DigestsAt(Digests(hex, files), SortedKeys(Digests(hex, files).Keys))
    ensures PlainPaths(files) ==> OneLineEach(SortedKeys(Digests(hex, files).Keys))
    ensures |SortedKeys(Digests(hex, files).Keys)| == |Digests(hex, files)|
    ensures Elements(SortedKeys(Digests(hex, files).Keys)) == Digests(hex, files).Keys
  {
    var d := Digests(hex, files);
    forall p | p in SortedKeys(d.Keys) ensures p in d && |d[p]| == |SHA_PREFIX| + 64 {
      SortedMember(d.Keys, p);
      assert IsHexHash(hex(files[p]));
    }
    SortedIsSorted(d.Keys);
    ElementsSize(SortedKeys(d.Keys));
  }

  lemma {:induction false} SameDigests(d: map<string, string>, e: map<string, string>, ps: seq<string>)
    requires Elements(ps) == d.Keys == e.Keys
    requires forall p :: p in ps ==> p in d && p in e && d[p] == e[p]
    ensures d == e
  {
    forall p | p in d.Keys ensures d[p] == e[p] {
      assert p in Elements(ps);
    }
  }

  /** Between bundles whose paths are one line each, the manifest says which digests they have, and nothing else. */
  lemma {:induction false} ManifestDeterminesDigests(hex: Hasher, f: map<string, string>, g: map<string, string>)
    requires Hexadecimal(hex) && PlainPaths(f) && PlainPaths(g)
    ensures Manifest(hex, f) == Manifest(hex, g) <==> Digests(hex, f) == Digests(hex, g)
  {
    var d, e := Digests(hex, f), Digests(hex, g);
    if Manifest(hex, f) == Manifest(hex, g) {
      DigestsOfSorted(hex, f);
      DigestsOfSorted(hex, g);
      LinesReadBack(d, SortedKeys(d.Keys), e, SortedKeys(e.Keys));
      SameDigests(d, e, SortedKeys(d.Keys));
    }
  }

  lemma {:induction false} JoinOne(d: map<string, string>, ps: seq<string>)
    requires |ps| == 1 && ps[0] in d
    ensures Join(DigestLines(d, ps)) == ps[0] + "\n" + d[ps[0]]
  {
    JoinFirst(d, ps);
    assert d[ps[0]] + "" == d[ps[0]];
  }

  lemma {:induction false} JoinMore(d: map<string, string>, ps: seq<string>)
    requires |ps| > 1 && ps[0] in d
    ensures Join(DigestLines(d, ps)) == ps[0] + "\n" + (d[ps[0]] + ("\n" + Join(DigestLines(d, ps[1..]))))
  {
    JoinFirst(d, ps);
  }

  /** The text of a non-empty list of lines, up to the newline before its last digest. */
  ghost function UpToLast(d: map<string, string>, ps: seq<string>): string
    requires ps != [] && DigestsAt(d, ps)
  {
    if |ps| == 1 then ps[0] else Longer(ps[0], d[ps[0]], UpToLast(d, ps[1..]))
  }

  ghost function Longer(path: string, digest: string, rest: string): string {
    path + "\n" + digest + "\n" + rest
  }

  /** A non-empty list of lines ends in its last digest. */
  lemma {:induction false} LastDigest(d: map<string, string>, ps: seq<string>)
    requires ps != [] && DigestsAt(d, ps)
    ensures Join(DigestLines(d, ps)) == UpToLast(d, ps) + "\n" + d[ps[|ps| - 1]]
  {
    if |ps| == 1 {
      JoinOne(d, ps);
    } else {
      JoinMore(d, ps);
      LastDigest(d, ps[1..]);
      assert ps[1..][|ps| - 2] == ps[|ps| - 1];
      PrependLine(ps[0], d[ps[0]], Join(DigestLines(d, ps[1..])), UpToLast(d, ps[1..]), d[ps[|ps| - 1]]);
    }
  }

  /** Two lines or more have a newline before the last digest. */
  lemma {:induction false} SeveralLines(d: map<string, string>, ps: seq<string>)
    requires |ps| > 1 && DigestsAt(d, ps)
    ensures !OneLine(UpToLast(d, ps))
  {
    NewlineInside(ps[0], d[ps[0]], UpToLast(d, ps[1..]));
  }

  lemma {:induction false} NewlineInside(path: string, digest: string, rest: string)
    ensures !OneLine(Longer(path, digest, rest))
  {
    assert Longer(path, digest, rest)[|path|] == '\n';
  }

  lemma {:induction false} PrependLine(path: string, digest: string, text: string, rest: string, last: string)
    requires text == rest + "\n" + last
    ensures path + "\n" + (digest + ("\n" + text)) == Longer(path, digest, rest) + "\n" + last
  {
  }

  lemma {:induction false} OneFileManifest(e: map<string, string>, p: string)
    requires e.Keys == {p}
    ensures ManifestText(e) == p + "\n" + e[p]
  {
    AtMostTotal(p, p);
    SortedStep({p}, p);
    assert {p} - {p} == {};
    assert SortedKeys(e.Keys) == [p];
    JoinOne(e, [p]);
  }

  lemma {:induction false} OneFileDigests(hex: Hasher, path: string, text: string)
    requires !Derived(path)
    ensures Digests(hex, map[path := text]) == map[path := Sha256(hex, text)]
    ensures |Digests(hex, map[path := text])| == 1
  {
  }

  /** The bundle of one file whose path spells out the lines of another bundle up to its last digest. */
  lemma {:induction false} MergedBundle(hex: Hasher, f: map<string, string>) returns (g: map<string, string>)
    requires Hexadecimal(hex) && |Digests(hex, f)| > 1
    ensures Manifest(hex, g) == Manifest(hex, f) && Digests(hex, g) != Digests(hex, f)
  {
    var d := Digests(hex, f);
    DigestsOfSorted(hex, f);
    var ps := SortedKeys(d.Keys);
    LastDigest(d, ps);
    SeveralLines(d, ps);
    var before, last := UpToLast(d, ps), ps[|ps| - 1];
    assert last in Elements(ps);
    g := map[before := f[last]];
    OneFileDigests(hex, before, f[last]);
    OneFileManifest(Digests(hex, g), before);
  }

  /**
   * Among all bundles, those with newlines in their paths included, the manifest
   * of a bundle with one-line paths stands for it alone exactly when it has at
   * most one line.
   */
  lemma {:induction false} ManifestStandsAlone(hex: Hasher, f: map<string, string>)
    requires Hexadecimal(hex) && PlainPaths(f)
    ensures (forall g :: Manifest(hex, g) == Manifest(hex, f) ==> Digests(hex, g) == Digests(hex, f)) <==>
      |Digests(hex, f)| <= 1
  {
    if |Digests(hex, f)| > 1 {
      var g := MergedBundle(hex, f);
    } else {
      forall g | Manifest(hex, g) == Manifest(hex, f) ensures Digests(hex, g) == Digests(hex, f) {
        FewLinesDetermined(hex, f, g);
      }
    }
  }

  lemma {:induction false} FewLinesDetermined(hex: Hasher, f: map<string, string>, g: map<string, string>)
    requires Hexadecimal(hex) && PlainPaths(f) && |Digests(hex, f)| <= 1 && Manifest(hex, g) == Manifest(hex, f)
    ensures Digests(hex, g) == Digests(hex, f)
  {
    var d, e := Digests(hex, f), Digests(hex, g);
    DigestsOfSorted(hex, f);
    DigestsOfSorted(hex, g);
    OneLineReadBack(d, SortedKeys(d.Keys), e, SortedKeys(e.Keys));
    SameDigests(d, e, SortedKeys(d.Keys));
  }

  lemma {:induction false} OneLineReadBack(d: map<string, string>, ps: seq<string>, e: map<string, string>,
      qs: seq<string>)
    requires DigestsAt(d, ps) && OneLineEach(ps) && DigestsAt(e, qs) && |ps| <= 1
    requires Join(DigestLines(d, ps)) == Join(DigestLines(e, qs))
    ensures ps == qs && forall p :: p in ps ==> d[p] == e[p]
  {
    if ps == [] {
      if qs != [] {
        JoinFirst(e, qs);
      }
    } else {
      LastDigest(d, ps);
      if qs != [] {
        LastDigest(e, qs);
        if |qs| > 1 {
          SeveralLines(e, qs);
        }
        var before, other := UpToLast(d, ps), UpToLast(e, qs);
        var x, y := d[ps[0]], e[qs[|qs| - 1]];
        var s, t := before + "\n" + x, other + "\n" + y;
        assert s[..|before|] == before && t[..|other|] == other;
        assert s[|before| + 1..] == x && t[|other| + 1..] == y;
        assert before == other;
        assert OneLine(ps[0]);
      }
    }
  }
}
