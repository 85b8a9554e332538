/** Which artifact paths are accepted, in terms of the slashes in them, and the forms of versions and ids. */
module ReleasePaths {
  import opened Basics
  import opened ReleaseIdentity

  /** From the start or a slash to the next slash or the end. */
  ghost predicate IsPart(s: string, i: nat, j: nat) {
    && i <= j <= |s| && (i == 0 || s[i - 1] == '/') && (j == |s| || s[j] == '/')
    && forall k :: i <= k < j ==> s[k] != '/'
  }

  ghost predicate PartIs(s: string, i: nat, j: nat, p: string) {
    IsPart(s, i, j) && s[i..j] == p
  }

  /** All but the last of these are the parts before a slash, and the last is the trailing part. */
  ghost predicate PartsAre(s: string, parts: seq<string>)
    requires parts != []
  {
    && (forall i: nat, j: nat :: IsPart(s, i, j) && j < |s| ==> s[i..j] in Front(parts))
    && (forall p :: p in Front(parts) ==> exists i: nat, j: nat :: j < |s| && PartIs(s, i, j, p))
    && exists i: nat :: PartIs(s, i, |s|, Last(parts))
  }

  lemma PartsOfFront(s: string, i: nat, j: nat)
    requires s != "" && i <= j < |s|
    ensures Front(s)[i..j] == s[i..j]
    ensures j < |s| - 1 || Last(s) == '/' ==> (IsPart(s, i, j) <==> IsPart(Front(s), i, j))
    ensures Last(s) != '/' ==> !IsPart(s, i, |s| - 1)
  {
    var f := Front(s);
    assert forall k :: 0 <= k < |f| ==> f[k] == s[k];
    assert i > 0 ==> f[i - 1] == s[i - 1];
    assert j < |f| ==> f[j] == s[j];
    if IsPart(f, i, j) { assert forall k :: i <= k < j ==> s[k] == f[k]; }
  }

  lemma TrailingIsOne(s: string, i: nat, j: nat)
    requires IsPart(s, i, |s|) && IsPart(s, j, |s|)
    ensures i == j
  {
  }

  lemma SlashEnds(s: string, before: seq<string>)
    requires s != "" && Last(s) == '/' && before != [] && PartsAre(Front(s), before)
    ensures PartsAre(s, before + [""])
  {
    var f, parts := Front(s), before + [""];
    assert Front(parts) == before && before == Front(before) + [Last(before)];
    var last: nat :| PartIs(f, last, |f|, Last(before));
    forall i: nat, j: nat | IsPart(s, i, j) && j < |s| ensures s[i..j] in before {
      PartsOfFront(s, i, j);
      if j == |f| { TrailingIsOne(f, i, last); }
    }
    forall p | p in before ensures exists i: nat, j: nat :: j < |s| && PartIs(s, i, j, p) {
      if p == Last(before) {
        PartsOfFront(s, last, |f|);
        assert PartIs(s, last, |f|, p);
      } else {
        var i: nat, j: nat :| j < |f| && PartIs(f, i, j, p);
        PartsOfFront(s, i, j);
        assert PartIs(s, i, j, p);
      }
    }
    assert s[|s|..|s|] == "" && Last(parts) == "";
    assert PartIs(s, |s|, |s|, Last(parts));
  }

  lemma PartGrows(s: string, before: seq<string>)
    requires s != "" && Last(s) != '/' && before != [] && PartsAre(Front(s), before)
    ensures PartsAre(s, Front(before) + [Last(before) + [Last(s)]])
  {
    var f, parts := Front(s), Front(before) + [Last(before) + [Last(s)]];
    assert Front(parts) == Front(before);
    var last: nat :| PartIs(f, last, |f|, Last(before));
    TrailingGrows(s, last);
    forall i: nat, j: nat | IsPart(s, i, j) && j < |s| ensures s[i..j] in Front(before) {
      PartsOfFront(s, i, j);
    }
    forall p | p in Front(before) ensures exists i: nat, j: nat :: j < |s| && PartIs(s, i, j, p) {
      var i: nat, j: nat :| j < |f| && PartIs(f, i, j, p);
      PartsOfFront(s, i, j);
      assert PartIs(s, i, j, p);
    }
    assert PartIs(s, last, |s|, Last(parts));
  }

  lemma TrailingGrows(s: string, last: nat)
    requires s != "" && Last(s) != '/' && IsPart(Front(s), last, |s| - 1)
    ensures IsPart(s, last, |s|) && s[last..|s|] == Front(s)[last..|s| - 1] + [Last(s)]
  {
    assert forall k :: 0 <= k < |s| - 1 ==> Front(s)[k] == s[k];
  }

  /** The parts between slashes are those of the split. */
  lemma {:induction false} SplitIsParts(s: string)
    ensures PartsAre(s, Split(s, '/'))
  {
    if s == "" {
      assert Front([""]) == [] && Last([""]) == "" && s[0..0] == "";
      assert PartIs(s, 0, |s|, Last([""]));
    } else {
      SplitIsParts(Front(s));
      if Last(s) == '/' { SlashEnds(s, Split(Front(s), '/')); } else { PartGrows(s, Split(Front(s), '/')); }
    }
  }

  predicate Harmless(part: string) {
    part != "" && part != "." && part != ".."
  }

  lemma HarmlessParts(s: string)
    ensures (forall p :: p in Split(s, '/') ==> Harmless(p))
            <==> forall i: nat, j: nat :: IsPart(s, i, j) ==> Harmless(s[i..j])
  {
    var parts := Split(s, '/');
    SplitIsParts(s);
    assert parts == Front(parts) + [Last(parts)];
    var last: nat :| PartIs(s, last, |s|, Last(parts));
    forall i: nat, j: nat | IsPart(s, i, j) ensures s[i..j] in parts {
      if j == |s| { TrailingIsOne(s, i, last); }
    }
    forall p | p in parts ensures exists i: nat, j: nat :: PartIs(s, i, j, p) {
      if p != Last(parts) { assert p in Front(parts); }
    }
  }

  /** A path is accepted exactly when it holds no backslash and no colon, and none of its parts between slashes
      is empty, one dot or two dots. */
  lemma SafePathIff(s: string)
    ensures SafePath(s)
            <==> && (forall k :: 0 <= k < |s| ==> s[k] != '\\' && s[k] != ':')
                 && forall i: nat, j: nat :: IsPart(s, i, j) ==> s[i..j] != "" && s[i..j] != "." && s[i..j] != ".."
  {
    HarmlessParts(s);
    assert (forall p :: p in Split(s, '/') ==> Harmless(p))
      <==> forall k :: 0 <= k < |Split(s, '/')| ==> Harmless(Split(s, '/')[k]);
    if s == "" || s[0] == '/' { assert IsPart(s, 0, 0) && s[0..0] == ""; }
    assert forall i: nat, j: nat :: IsPart(s, i, j) ==>
             (Harmless(s[i..j]) <==> s[i..j] != "" && s[i..j] != "." && s[i..j] != "..");
  }

  // ---------------------------------------------------------------- order and case

  /** A path comes after another exactly when it goes on where the other ends, or has the greater character
      where the two first differ. */
  lemma {:induction false} AfterIff(a: string, b: string)
    ensures After(a, b) <==> exists n: nat :: ComesAfterAt(a, b, n)
  {
    if a == "" || b == "" || a[0] != b[0] {
      if a != "" && (b == "" || a[0] > b[0]) { assert ComesAfterAt(a, b, 0); }
      assert forall n: nat :: n > 0 ==> !ComesAfterAt(a, b, n);
    } else {
      AfterIff(a[1..], b[1..]);
      if n: nat :| ComesAfterAt(a[1..], b[1..], n) {
        assert a[..n + 1] == [a[0]] + a[1..][..n] && b[..n + 1] == [b[0]] + b[1..][..n];
        assert ComesAfterAt(a, b, n + 1);
      }
      if n: nat :| ComesAfterAt(a, b, n) {
        assert n > 0 && a[1..][..n - 1] == a[..n][1..] && b[1..][..n - 1] == b[..n][1..];
        assert ComesAfterAt(a[1..], b[1..], n - 1);
      }
    }
  }

  predicate ComesAfterAt(a: string, b: string, n: nat) {
    n < |a| && n <= |b| && a[..n] == b[..n] && (n == |b| || a[n] > b[n])
  }

  /** Two paths count as one exactly when they differ at most in the case of letters A to Z. */
  lemma SameUpToCaseIff(a: string, b: string)
    ensures Lower(a) == Lower(b) <==> |a| == |b| && forall k :: 0 <= k < |a| ==> SameLetter(a[k], b[k])
  {
    assert forall k :: 0 <= k < |a| ==> Lower(a)[k] == LowerChar(a[k]);
    assert forall k :: 0 <= k < |b| ==> Lower(b)[k] == LowerChar(b[k]);
  }

  predicate SameLetter(c: char, d: char) {
    || c == d
    || ('A' <= c <= 'Z' && 'a' <= d <= 'z' && d as int == c as int + 32)
    || ('A' <= d <= 'Z' && 'a' <= c <= 'z' && c as int == d as int + 32)
  }

  // ---------------------------------------------------------------- versions, ids and entries

  predicate LetterOrDigit(c: char) {
    'a' <= c <= 'z' || 'A' <= c <= 'Z' || '0' <= c <= '9'
  }

  /** One to 128 letters, digits, dots, plus signs and hyphens, the first a letter or digit, no two dots in a row. */
  ghost predicate VersionForm(s: string) {
    && 1 <= |s| <= 128 && LetterOrDigit(s[0])
    && (forall c :: c in s ==> LetterOrDigit(c) || c in ".+-")
    && forall a: string, b: string :: s != a + ".." + b
  }

  /** 64 digits of lower-case hexadecimal. */
  ghost predicate DigestForm(s: string) {
    |s| == 64 && forall c :: c in s ==> '0' <= c <= '9' || 'a' <= c <= 'f'
  }

  lemma DotsIff(s: string)
    ensures HasDoubleDot(s) <==> exists a: string, b: string :: s == a + ".." + b
  {
    if HasDoubleDot(s) {
      var i :| 0 <= i < |s| - 1 && s[i] == '.' && s[i + 1] == '.';
      assert s == s[..i] + ".." + s[i + 2..];
    }
    if a: string, b: string :| s == a + ".." + b {
      assert s[|a|] == '.' && s[|a| + 1] == '.';
    }
  }

  lemma VersionIff(s: string)
    ensures SafeVersion(s) <==> VersionForm(s)
  {
    DotsIff(s);
    forall i | 0 <= i < |s| ensures s[i] in s {
    }
  }

  lemma DigestIff(s: string)
    ensures IsHash(s) <==> DigestForm(s)
  {
    forall i | 0 <= i < |s| ensures s[i] in s {
    }
  }

  /** A release id is exactly a version, a hyphen and a digest. */
  lemma ReleaseIdIff(s: string)
    ensures SafeReleaseId(s)
            <==> exists version: string, digest: string ::
                   s == version + "-" + digest && VersionForm(version) && DigestForm(digest)
  {
    if SafeReleaseId(s) {
      var version, digest := s[..|s| - 65], s[|s| - 64..];
      VersionIff(version);
      DigestIff(digest);
      assert s == version + "-" + digest;
    }
    if version: string, digest: string :| s == version + "-" + digest && VersionForm(version) && DigestForm(digest) {
      VersionIff(version);
      DigestIff(digest);
      assert s[..|s| - 65] == version && s[|s| - 64..] == digest;
    }
  }

  /** An artifact entry is fit exactly with a path, a digest and a size that are. */
  lemma EntryFitsIff(e: Entry)
    ensures EntryFits(e) <==> SafePath(e.path) && DigestForm(e.sha256) && 0 <= e.size < 9_007_199_254_740_992
  {
    DigestIff(e.sha256);
  }

  predicate Unsigned32(n: int) {
    0 <= n < 4_294_967_296
  }

  /** A manifest is fit exactly with its format and component, a version, a release id, four numbers of 32 bits and
      at least one artifact, each fit, no two paths alike up to case, and in order. */
  lemma ManifestFitsIff(m: Manifest)
    ensures ManifestFits(m)
            <==> && m.format == 1 && m.component == "omp-adapter" && VersionForm(m.version)
                 && SafeReleaseId(m.releaseId)
                 && Unsigned32(m.hostApi) && Unsigned32(m.substrateApi)
                 && Unsigned32(m.deliveryApi) && Unsigned32(m.schemaVersion)
                 && m.artifacts != [] && PathsDistinct(m.artifacts) && PathsSorted(m.artifacts)
                 && forall k :: 0 <= k < |m.artifacts| ==> EntryFits(m.artifacts[k])
  {
    VersionIff(m.version);
  }
}
