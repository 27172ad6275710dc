/** What references and manifests look like. */
module ManifestForm {
  import opened Prelude
  import opened Text
  import opened CanonicalRef

  const HEX_DIGITS := "0123456789abcdef"

  ghost predicate HexText(s: string) {
    |s| == 64 && forall i :: 0 <= i < 64 ==> s[i] in HEX_DIGITS
  }

  lemma {:induction false} HexIsListed(s: string)
    ensures IsHexHash(s) <==> HexText(s)
  {
    assert HEX_DIGITS[..10] == "0123456789" && HEX_DIGITS[10..] == "abcdef";
    forall c: char ensures c in HEX_DIGITS <==> '0' <= c <= '9' || 'a' <= c <= 'f' {
      assert c in HEX_DIGITS <==> c in HEX_DIGITS[..10] || c in HEX_DIGITS[10..];
    }
  }

  /** A reference is made from 64 hexadecimal digits in lower case, prefixed or not, and from nothing else. */
  lemma {:induction false} RunRefForm(hash: string, ref: string)
    ensures MakeRunRef(hash) == Success(ref) <==>
      exists bare :: HexText(bare) && (hash == bare || hash == "sha256:" + bare) && ref == "calane://run/" + bare
    ensures MakeRunRef(hash).Failure? ==> MakeRunRef(hash).error == InvalidHash(hash)
    ensures ParseRunRef(ref) == Success(hash) <==> HexText(hash) && ref == "calane://run/" + hash
  {
    HexIsListed(hash);
    HexIsListed(StripSha256Prefix(hash));
    RunRefRoundTrip(ref, hash);
    if MakeRunRef(hash) == Success(ref) {
      var bare := StripSha256Prefix(hash);
      assert hash == bare || hash == SHA_PREFIX + bare;
    }
    if bare :| HexText(bare) && (hash == bare || hash == "sha256:" + bare) && ref == "calane://run/" + bare {
      HexIsListed(bare);
      HexIsBare(bare);
    }
  }

  // ----- lines ------------------------------------------------------------

  /** A text cut at its newlines. */
  function LinesOf(s: string): (lines: seq<string>)
    ensures lines != []
  {
    if s == "" then [""]
    else if s[0] == '\n' then [""] + LinesOf(s[1..])
    else
      var rest := LinesOf(s[1..]);
      [[s[0]] + rest[0]] + rest[1..]
  }

  lemma {:induction false} FirstLine(line: string, rest: string)
    requires '\n' !in line
    ensures LinesOf(line) == [line]
    ensures LinesOf(line + "\n" + rest) == [line] + LinesOf(rest)
  {
    var s := line + "\n" + rest;
    if line == "" {
      assert s[1..] == rest;
    } else {
      assert s[1..] == line[1..] + "\n" + rest;
      FirstLine(line[1..], rest);
      assert line == [line[0]] + line[1..];
    }
  }

  /** For each path its line, and below it the digest of its file. */
  ghost predicate TwoLinesEach(lines: seq<string>, hex: Hasher, files: map<string, string>, paths: seq<string>) {
    && |lines| == 2 * |paths|
    && forall i :: 0 <= i < |paths| ==> TwoLines(lines[2 * i], lines[2 * i + 1], hex, files, paths[i])
  }

  ghost predicate TwoLines(first: string, second: string, hex: Hasher, files: map<string, string>, path: string) {
    path in files && first == path && second == "sha256:" + hex(files[path])
  }

  /** The files that count, whose paths hold no newline. */
  ghost predicate PathsWithoutNewline(files: map<string, string>) {
    forall p :: p in files && p != "signature.json" && p != "canonical_ref.txt" ==> '\n' !in p
  }

  /**
   * The lines of a manifest: the paths in ascending order, each followed by the
   * digest of its file, the signature and the reference file left out.
   */
  lemma {:induction false} ManifestReads(hex: Hasher, files: map<string, string>)
    requires Hexadecimal(hex) && PathsWithoutNewline(files)
    ensures var paths := SortedKeys(files.Keys - {"signature.json", "canonical_ref.txt"});
      if paths == [] then Manifest(hex, files) == ""
      else TwoLinesEach(LinesOf(Manifest(hex, files)), hex, files, paths)
  {
    var digests := Digests(hex, files);
    assert digests.Keys == files.Keys - {"signature.json", "canonical_ref.txt"};
    var paths := SortedKeys(digests.Keys);
    forall p | p in paths ensures p in digests && '\n' !in p {
      SortedMember(digests.Keys, p);
    }
    if paths != [] {
      LinesRead(hex, files, paths);
    }
  }

  lemma {:induction false} LinesRead(hex: Hasher, files: map<string, string>, paths: seq<string>)
    requires Hexadecimal(hex) && paths != [] && forall p :: p in paths ==> p in Digests(hex, files) && '\n' !in p
    ensures TwoLinesEach(LinesOf(Join(DigestLines(Digests(hex, files), paths))), hex, files, paths)
  {
    var d := Digests(hex, files);
    var path, rest, text := paths[0], paths[1..], Join(DigestLines(d, paths[1..]));
    JoinFirst(d, paths);
    DigestIsOneLine(hex, files[path]);
    TwoLinesFirst(path, d[path], text);
    if rest == [] {
      assert path + "\n" + (d[path] + "") == path + "\n" + d[path];
      OneMore(hex, files, paths, []);
      assert [path, d[path]] + [] == [path, d[path]];
    } else {
      assert path + "\n" + (d[path] + ("\n" + text)) == path + "\n" + d[path] + "\n" + text;
      LinesRead(hex, files, rest);
      OneMore(hex, files, paths, LinesOf(text));
    }
  }

  lemma {:induction false} TwoLinesFirst(path: string, digest: string, text: string)
    requires '\n' !in path && '\n' !in digest
    ensures LinesOf(path + "\n" + digest) == [path, digest]
    ensures LinesOf(path + "\n" + digest + "\n" + text) == [path, digest] + LinesOf(text)
  {
    FirstLine(path, digest);
    FirstLine(digest, text);
    FirstLine(path, digest + "\n" + text);
    assert path + "\n" + digest + "\n" + text == path + "\n" + (digest + "\n" + text);
  }

  lemma {:induction false} DigestIsOneLine(hex: Hasher, text: string)
    requires Hexadecimal(hex)
    ensures '\n' !in Sha256(hex, text) && Sha256(hex, text) == "sha256:" + hex(text)
  {
    assert IsHexHash(hex(text));
  }

  lemma {:induction false} OneMore(hex: Hasher, files: map<string, string>, paths: seq<string>, more: seq<string>)
    requires paths != [] && paths[0] in files && TwoLinesEach(more, hex, files, paths[1..])
    ensures TwoLinesEach([paths[0], "sha256:" + hex(files[paths[0]])] + more, hex, files, paths)
  {
    var lines := [paths[0], "sha256:" + hex(files[paths[0]])] + more;
    forall i | 0 <= i < |paths| ensures TwoLines(lines[2 * i], lines[2 * i + 1], hex, files, paths[i]) {
      if i > 0 {
        assert TwoLines(more[2 * (i - 1)], more[2 * (i - 1) + 1], hex, files, paths[1..][i - 1]);
      }
    }
  }
}
