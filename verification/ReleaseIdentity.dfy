/** The canonical identity text of an adapter release: which manifests are accepted, the text that is
    hashed into the release id, and a decoder that takes the text apart again. */
module ReleaseIdentity {
  import opened Basics
  import Decimal

  const MAX_SAFE_INTEGER := 9_007_199_254_740_991
  const MAX_U32 := 0xFFFF_FFFF

  datatype Compatibility = Compatibility(hostApi: nat, substrateApi: nat, deliveryApi: nat, schemaVersion: nat)

  datatype Artifact = Artifact(path: string, sha256: string, size: nat)

  /** What the identity text speaks of. */
  datatype Identity = Identity(version: string, compatibility: Compatibility, artifacts: seq<Artifact>)

  // ---------------------------------------------------------------- acceptance

  predicate IsAlphanumeric(c: char) {
    '0' <= c <= '9' || 'A' <= c <= 'Z' || 'a' <= c <= 'z'
  }

  predicate HasDoubleDot(s: string) {
    exists i :: 0 <= i < |s| - 1 && s[i] == '.' && s[i + 1] == '.'
  }

  predicate SafeVersion(s: string) {
    && 1 <= |s| <= 128
    && IsAlphanumeric(s[0])
    && (forall i :: 0 <= i < |s| ==> IsAlphanumeric(s[i]) || s[i] == '.' || s[i] == '+' || s[i] == '-')
    && !HasDoubleDot(s)
  }

  predicate IsHash(s: string) {
    |s| == 64 && forall i :: 0 <= i < |s| ==> Decimal.IsDigit(s[i]) || 'a' <= s[i] <= 'f'
  }

  predicate SafeReleaseId(s: string) {
    |s| >= 66 && s[|s| - 65] == '-' && IsHash(s[|s| - 64..]) && SafeVersion(s[..|s| - 65])
  }

  function Split(s: string, c: char): (parts: seq<string>)
    ensures parts != []
  {
    if s == "" then [""]
    else
      var rest := Split(Front(s), c);
      if Last(s) == c then rest + [""] else Front(rest) + [Last(rest) + [Last(s)]]
  }

  predicate SafePath(s: string) {
    && s != "" && s[0] != '/' && '\\' !in s && ':' !in s
    && forall k :: 0 <= k < |Split(s, '/')| ==>
         Split(s, '/')[k] != "" && Split(s, '/')[k] != "." && Split(s, '/')[k] != ".."
  }

  function LowerChar(c: char): char {
    if 'A' <= c <= 'Z' then c + ('a' - 'A') else c
  }

  function Lower(s: string): string {
    seq(|s|, i requires 0 <= i < |s| => LowerChar(s[i]))
  }

  predicate After(a: string, b: string) {
    if b == "" then a != ""
    else if a == "" then false
    else if a[0] == b[0] then After(a[1..], b[1..])
    else a[0] > b[0]
  }

  datatype Fault = UnsafePath(index: nat) | Duplicate(index: nat) | BadHash(index: nat) | BadSize(index: nat) | Unsorted

  /** An artifact entry of the manifest; its size is still any number. */
  datatype Entry = Entry(path: string, sha256: string, size: int)

  predicate EntryFits(e: Entry) {
    SafePath(e.path) && IsHash(e.sha256) && 0 <= e.size <= MAX_SAFE_INTEGER
  }

  ghost predicate PathsDistinct(entries: seq<Entry>) {
    forall i, j :: 0 <= i < j < |entries| ==> Lower(entries[i].path) != Lower(entries[j].path)
  }

  ghost predicate PathsSorted(entries: seq<Entry>) {
    forall i :: 0 < i < |entries| ==> !After(entries[i - 1].path, entries[i].path)
  }

  /** No two paths agree up to ASCII case, and they are in order. */
  ghost predicate InOrder(artifacts: seq<Artifact>) {
    && (forall i, j :: 0 <= i < j < |artifacts| ==> Lower(artifacts[i].path) != Lower(artifacts[j].path))
    && (forall i :: 0 < i < |artifacts| ==> !After(artifacts[i - 1].path, artifacts[i].path))
  }

  /** The loops of `parseComponentManifest` over the artifacts: accepted exactly when every entry is
      fit, no two paths agree up to ASCII case, and the paths are in order. */
  method ParseArtifacts(entries: seq<Entry>) returns (r: Result<seq<Artifact>, Fault>)
    ensures r.Ok?
            <==> (forall k :: 0 <= k < |entries| ==> EntryFits(entries[k]))
                 && PathsDistinct(entries) && PathsSorted(entries)
    ensures r.Ok? ==> InOrder(r.value) && |r.value| == |entries| && forall k :: 0 <= k < |entries| ==>
              r.value[k] == Artifact(entries[k].path, entries[k].sha256, entries[k].size)
  {
    var seen, artifacts := {}, [];
    var i := 0;
    while i < |entries|
      invariant i <= |entries| == i + (|entries| - i) && |artifacts| == i
      invariant forall k :: 0 <= k < i ==> EntryFits(entries[k])
      invariant forall k :: 0 <= k < i ==> artifacts[k] == Artifact(entries[k].path, entries[k].sha256, entries[k].size)
      invariant forall lower :: lower in seen <==> exists k :: 0 <= k < i && Lower(entries[k].path) == lower
      invariant PathsDistinct(entries[..i])
    {
      var e := entries[i];
      if !SafePath(e.path) {
        return Err(UnsafePath(i));
      }
      if Lower(e.path) in seen {
        return Err(Duplicate(i));
      }
      seen := seen + {Lower(e.path)};
      if !IsHash(e.sha256) {
        return Err(BadHash(i));
      }
      if !(0 <= e.size <= MAX_SAFE_INTEGER) {
        return Err(BadSize(i));
      }
      artifacts := artifacts + [Artifact(e.path, e.sha256, e.size)];
      i := i + 1;
    }
    assert entries[..i] == entries;
    i := 1;
    while i < |entries|
      invariant forall k :: 0 < k < i && k < |entries| ==> !After(entries[k - 1].path, entries[k].path)
    {
      if After(entries[i - 1].path, entries[i].path) {
        return Err(Unsorted);
      }
      i := i + 1;
    }
    return Ok(artifacts);
  }

  /** An accepted manifest, as far as its identity goes. */
  ghost predicate Accepted(m: Identity) {
    && SafeVersion(m.version)
    && m.compatibility.hostApi <= MAX_U32 && m.compatibility.substrateApi <= MAX_U32
    && m.compatibility.deliveryApi <= MAX_U32 && m.compatibility.schemaVersion <= MAX_U32
    && m.artifacts != [] && InOrder(m.artifacts)
    && forall k :: 0 <= k < |m.artifacts| ==>
         SafePath(m.artifacts[k].path) && IsHash(m.artifacts[k].sha256) && m.artifacts[k].size <= MAX_SAFE_INTEGER
  }

  datatype Manifest = Manifest(format: int, component: string, version: string, releaseId: string, hostApi: int,
                               substrateApi: int, deliveryApi: int, schemaVersion: int, artifacts: seq<Entry>)

  predicate U32(n: int) {
    0 <= n <= MAX_U32
  }

  ghost predicate ManifestFits(m: Manifest) {
    && m.format == 1 && m.component == "omp-adapter"
    && SafeVersion(m.version) && SafeReleaseId(m.releaseId)
    && U32(m.hostApi) && U32(m.substrateApi) && U32(m.deliveryApi) && U32(m.schemaVersion)
    && m.artifacts != []
    && (forall k :: 0 <= k < |m.artifacts| ==> EntryFits(m.artifacts[k]))
    && PathsDistinct(m.artifacts) && PathsSorted(m.artifacts)
  }

  /** Nothing but a fit manifest is accepted, and every fit one is; what comes out is its identity. */
  method ParseComponentManifest(m: Manifest) returns (r: Option<Identity>)
    ensures r.Some? <==> ManifestFits(m)
    ensures r.Some? ==> Accepted(r.value) && r.value.version == m.version && |r.value.artifacts| == |m.artifacts|
    ensures r.Some? ==>
              r.value.compatibility == Compatibility(m.hostApi, m.substrateApi, m.deliveryApi, m.schemaVersion)
    ensures r.Some? ==> forall k :: 0 <= k < |m.artifacts| ==>
              r.value.artifacts[k] == Artifact(m.artifacts[k].path, m.artifacts[k].sha256, m.artifacts[k].size)
  {
    if m.format != 1 || m.component != "omp-adapter" {
      return None;
    }
    if !SafeVersion(m.version) || !SafeReleaseId(m.releaseId) {
      return None;
    }
    if !(U32(m.hostApi) && U32(m.substrateApi) && U32(m.deliveryApi) && U32(m.schemaVersion)) {
      return None;
    }
    if m.artifacts == [] {
      return None;
    }
    var artifacts := ParseArtifacts(m.artifacts);
    if artifacts.Err? {
      return None;
    }
    var numbers := Compatibility(m.hostApi, m.substrateApi, m.deliveryApi, m.schemaVersion);
    return Some(Identity(m.version, numbers, artifacts.value));
  }

  // ---------------------------------------------------------------- the text

  function ArtifactLine(a: Artifact): string {
    "artifact=" + (a.path + ['\t'] + (a.sha256 + ['\t'] + Decimal.Print(a.size)))
  }

  function ArtifactLines(artifacts: seq<Artifact>): seq<string> {
    if artifacts == [] then [] else [ArtifactLine(artifacts[0])] + ArtifactLines(artifacts[1..])
  }

  function HeadLines(m: Identity): seq<string> {
    ["format=1", "component=omp-adapter", "version=" + m.version,
     "hostApi=" + Decimal.Print(m.compatibility.hostApi),
     "substrateApi=" + Decimal.Print(m.compatibility.substrateApi),
     "deliveryApi=" + Decimal.Print(m.compatibility.deliveryApi),
     "schemaVersion=" + Decimal.Print(m.compatibility.schemaVersion)]
  }

  function Join(lines: seq<string>): string {
    if lines == [] then "" else lines[0] + ['\n'] + Join(lines[1..])
  }

  function Text(m: Identity): string {
    Join(HeadLines(m) + ArtifactLines(m.artifacts))
  }

  // ---------------------------------------------------------------- the decoder

  function IndexOf(s: string, c: char): (i: nat)
    ensures i <= |s|
    ensures i < |s| ==> s[i] == c
    ensures forall k :: 0 <= k < i ==> s[k] != c
  {
    if s == "" || s[0] == c then 0 else 1 + IndexOf(s[1..], c)
  }

  function LastIndexOf(s: string, c: char): (i: int)
    ensures -1 <= i < |s|
    ensures i >= 0 ==> s[i] == c
    ensures forall k :: i < k < |s| ==> s[k] != c
  {
    if s == "" then -1 else if Last(s) == c then |s| - 1 else LastIndexOf(Front(s), c)
  }

  /** The lines of a text, each ended by a line feed. */
  function Lines(text: string): seq<string>
    decreases |text|
  {
    var i := IndexOf(text, '\n');
    if i == |text| then [] else [text[..i]] + Lines(text[i + 1..])
  }

  function Tail(prefix: string, line: string): Option<string> {
    if prefix <= line then Some(line[|prefix|..]) else None
  }

  function Number(prefix: string, line: string): Option<nat> {
    var t := Tail(prefix, line);
    if t.Some? && Decimal.AllDigits(t.value) then Some(Decimal.Value(t.value)) else None
  }

  function DecodeArtifact(line: string): Option<Artifact> {
    var t := Tail("artifact=", line);
    if t.None? then None
    else
      var s := t.value;
      var j := LastIndexOf(s, '\t');
      if j < 0 then None
      else
        var i := LastIndexOf(s[..j], '\t');
        if i < 0 || !Decimal.AllDigits(s[j + 1..]) then None
        else Some(Artifact(s[..i], s[i + 1..j], Decimal.Value(s[j + 1..])))
  }

  function DecodeArtifacts(lines: seq<string>): Option<seq<Artifact>> {
    if lines == [] then Some([])
    else
      var first, rest := DecodeArtifact(lines[0]), DecodeArtifacts(lines[1..]);
      if first.Some? && rest.Some? then Some([first.value] + rest.value) else None
  }

  function DecodeLines(lines: seq<string>): Option<Identity> {
    if |lines| < 7 then None
    else
      var version, artifacts := Tail("version=", lines[2]), DecodeArtifacts(lines[7..]);
      var host, substrate := Number("hostApi=", lines[3]), Number("substrateApi=", lines[4]);
      var delivery, schema := Number("deliveryApi=", lines[5]), Number("schemaVersion=", lines[6]);
      if version.None? || artifacts.None? || host.None? || substrate.None? || delivery.None? || schema.None? then None
      else Some(Identity(version.value, Compatibility(host.value, substrate.value, delivery.value, schema.value),
                         artifacts.value))
  }

  function Decode(text: string): Option<Identity> {
    DecodeLines(Lines(text))
  }

  // ---------------------------------------------------------------- the decoder inverts the printer

  predicate OneLine(s: string) {
    forall i :: 0 <= i < |s| ==> s[i] != '\n'
  }

  ghost predicate AllOneLine(lines: seq<string>) {
    forall k :: 0 <= k < |lines| ==> OneLine(lines[k])
  }

  lemma FirstLine(line: string, rest: string)
    requires OneLine(line)
    ensures Lines(line + ['\n'] + rest) == [line] + Lines(rest)
  {
    var text := line + ['\n'] + rest;
    assert text[|line|] == '\n';
    assert forall k :: 0 <= k < |line| ==> text[k] == line[k];
    assert IndexOf(text, '\n') == |line|;
    assert text[..|line|] == line && text[|line| + 1..] == rest;
  }

  lemma {:induction false} LinesOfJoin(lines: seq<string>)
    requires AllOneLine(lines)
    ensures Lines(Join(lines)) == lines
  {
    if lines != [] {
      assert OneLine(lines[0]);
      assert AllOneLine(lines[1..]);
      FirstLine(lines[0], Join(lines[1..]));
      LinesOfJoin(lines[1..]);
    }
  }

  lemma TailOfConcat(prefix: string, s: string)
    ensures Tail(prefix, prefix + s) == Some(s)
  {
    assert (prefix + s)[|prefix|..] == s;
  }

  lemma NumberOfPrint(prefix: string, n: nat)
    ensures Number(prefix, prefix + Decimal.Print(n)) == Some(n)
  {
    TailOfConcat(prefix, Decimal.Print(n));
    Decimal.ValueOfPrint(n);
  }

  predicate NoTab(s: string) {
    forall i :: 0 <= i < |s| ==> s[i] != '\t'
  }

  lemma {:induction false} LastTabAt(s: string, n: nat)
    requires n < |s| && s[n] == '\t' && forall k :: n < k < |s| ==> s[k] != '\t'
    ensures LastIndexOf(s, '\t') == n
  {
  }

  lemma LastTab(a: string, b: string, s: string)
    requires NoTab(b) && s == a + ['\t'] + b
    ensures LastIndexOf(s, '\t') == |a| && s[..|a|] == a && s[|a| + 1..] == b
  {
    assert forall k :: |a| < k < |s| ==> s[k] == b[k - |a| - 1];
    LastTabAt(s, |a|);
  }

  lemma DigitsAreTame(n: nat)
    ensures NoTab(Decimal.Print(n)) && OneLine(Decimal.Print(n))
  {
    assert forall i :: 0 <= i < |Decimal.Print(n)| ==> Decimal.IsDigit(Decimal.Print(n)[i]);
  }

  lemma ArtifactRoundTrip(a: Artifact)
    requires NoTab(a.sha256)
    ensures DecodeArtifact(ArtifactLine(a)) == Some(a)
  {
    var size := Decimal.Print(a.size);
    var left := a.path + ['\t'] + a.sha256;
    var s := a.path + ['\t'] + (a.sha256 + ['\t'] + size);
    assert s == left + ['\t'] + size;
    TailOfConcat("artifact=", s);
    DigitsAreTame(a.size);
    LastTab(left, size, s);
    LastTab(a.path, a.sha256, left);
    Decimal.ValueOfPrint(a.size);
    assert s[|a.path| + 1..|left|] == left[|a.path| + 1..];
    assert s[..|a.path|] == left[..|a.path|];
  }

  lemma {:induction false} ArtifactsRoundTrip(artifacts: seq<Artifact>)
    requires forall k :: 0 <= k < |artifacts| ==> NoTab(artifacts[k].sha256)
    ensures DecodeArtifacts(ArtifactLines(artifacts)) == Some(artifacts)
    ensures |ArtifactLines(artifacts)| == |artifacts|
  {
    var lines := ArtifactLines(artifacts);
    if artifacts == [] {
      assert DecodeArtifacts(lines) == Some([]);
    } else {
      ArtifactRoundTrip(artifacts[0]);
      ArtifactsRoundTrip(artifacts[1..]);
      assert lines[0] == ArtifactLine(artifacts[0]) && lines[1..] == ArtifactLines(artifacts[1..]);
      assert artifacts == [artifacts[0]] + artifacts[1..];
    }
  }

  lemma LinesRoundTrip(m: Identity)
    requires forall k :: 0 <= k < |m.artifacts| ==> NoTab(m.artifacts[k].sha256)
    ensures DecodeLines(HeadLines(m) + ArtifactLines(m.artifacts)) == Some(m)
  {
    var head, body := HeadLines(m), ArtifactLines(m.artifacts);
    ArtifactsRoundTrip(m.artifacts);
    TailOfConcat("version=", m.version);
    NumberOfPrint("hostApi=", m.compatibility.hostApi);
    NumberOfPrint("substrateApi=", m.compatibility.substrateApi);
    NumberOfPrint("deliveryApi=", m.compatibility.deliveryApi);
    NumberOfPrint("schemaVersion=", m.compatibility.schemaVersion);
    assert (head + body)[7..] == body;
  }

  ghost predicate PathsOneLine(m: Identity) {
    forall k :: 0 <= k < |m.artifacts| ==> OneLine(m.artifacts[k].path)
  }

  lemma HashIsTame(s: string)
    requires IsHash(s)
    ensures NoTab(s) && OneLine(s)
  {
  }

  lemma ArtifactLineIsOneLine(a: Artifact)
    requires OneLine(a.path) && OneLine(a.sha256)
    ensures OneLine(ArtifactLine(a))
  {
    DigitsAreTame(a.size);
  }

  lemma {:induction false} ArtifactLinesAreOneLine(artifacts: seq<Artifact>)
    requires forall k :: 0 <= k < |artifacts| ==> OneLine(artifacts[k].path) && OneLine(artifacts[k].sha256)
    ensures AllOneLine(ArtifactLines(artifacts))
  {
    if artifacts != [] {
      ArtifactLineIsOneLine(artifacts[0]);
      ArtifactLinesAreOneLine(artifacts[1..]);
    }
  }

  lemma HeadIsOneLine(m: Identity)
    requires SafeVersion(m.version)
    ensures AllOneLine(HeadLines(m))
  {
    NumberIsOneLine("hostApi=", m.compatibility.hostApi);
    NumberIsOneLine("substrateApi=", m.compatibility.substrateApi);
    NumberIsOneLine("deliveryApi=", m.compatibility.deliveryApi);
    NumberIsOneLine("schemaVersion=", m.compatibility.schemaVersion);
    ConcatIsOneLine("version=", m.version);
  }

  lemma ConcatIsOneLine(a: string, b: string)
    requires OneLine(a) && OneLine(b)
    ensures OneLine(a + b)
  {
  }

  lemma NumberIsOneLine(prefix: string, n: nat)
    requires OneLine(prefix)
    ensures OneLine(prefix + Decimal.Print(n))
  {
    DigitsAreTame(n);
    ConcatIsOneLine(prefix, Decimal.Print(n));
  }

  /** The decoder inverts the printer on every accepted manifest whose paths hold no line feed. */
  lemma TextRoundTrip(m: Identity)
    requires Accepted(m) && PathsOneLine(m)
    ensures Decode(Text(m)) == Some(m)
  {
    forall k | 0 <= k < |m.artifacts| ensures NoTab(m.artifacts[k].sha256) && OneLine(m.artifacts[k].sha256) {
      HashIsTame(m.artifacts[k].sha256);
    }
    HeadIsOneLine(m);
    ArtifactLinesAreOneLine(m.artifacts);
    LinesOfJoin(HeadLines(m) + ArtifactLines(m.artifacts));
    LinesRoundTrip(m);
  }

  /** Equal texts, equal releases: version, all four compatibility numbers, and the whole ordered list
      of artifacts. */
  lemma TextIsInjective(m: Identity, n: Identity)
    requires Accepted(m) && PathsOneLine(m) && Accepted(n) && PathsOneLine(n) && Text(m) == Text(n)
    ensures m == n
  {
    TextRoundTrip(m);
    TextRoundTrip(n);
  }

  // ---------------------------------------------------------------- line feeds in paths

  lemma SplitLine(line: string, i: nat, rest: string, more: string)
    requires i < |line| && line[i] == '\n' && more == line[i + 1..] + ['\n'] + rest
    ensures line + ['\n'] + rest == line[..i] + ['\n'] + more
  {
  }

  lemma {:induction false} MoreLines(line: string, rest: string)
    ensures |Lines(line + ['\n'] + rest)| >= 1 + |Lines(rest)|
    ensures !OneLine(line) ==> |Lines(line + ['\n'] + rest)| > 1 + |Lines(rest)|
    decreases |line|
  {
    var i := IndexOf(line, '\n');
    if i == |line| {
      FirstLine(line, rest);
    } else {
      var first, tail := line[..i], line[i + 1..];
      var more := tail + ['\n'] + rest;
      MoreLines(tail, rest);
      FirstLine(first, more);
      SplitLine(line, i, rest, more);
    }
  }

  lemma {:induction false} LinesCount(lines: seq<string>)
    ensures |Lines(Join(lines))| >= |lines|
    ensures !AllOneLine(lines) ==> |Lines(Join(lines))| > |lines|
  {
    if lines != [] {
      MoreLines(lines[0], Join(lines[1..]));
      LinesCount(lines[1..]);
      assert AllOneLine(lines[1..]) && OneLine(lines[0]) ==> AllOneLine(lines);
    }
  }

  lemma {:induction false} DecodedCount(lines: seq<string>)
    requires DecodeArtifacts(lines).Some?
    ensures |DecodeArtifacts(lines).value| == |lines|
  {
    if lines != [] {
      DecodedCount(lines[1..]);
    }
  }

  lemma {:induction false} PathLineFeedShows(artifacts: seq<Artifact>, k: nat)
    requires k < |artifacts| && !OneLine(artifacts[k].path)
    ensures !AllOneLine(ArtifactLines(artifacts)) && |ArtifactLines(artifacts)| == |artifacts|
  {
    var lines := ArtifactLines(artifacts);
    assert lines[1..] == ArtifactLines(artifacts[1..]);
    if k == 0 {
      var path := artifacts[0].path;
      var i :| 0 <= i < |path| && path[i] == '\n';
      assert lines[0][9 + i] == '\n';
      LinesMatch(artifacts);
    } else {
      PathLineFeedShows(artifacts[1..], k - 1);
      var j :| 0 <= j < |lines[1..]| && !OneLine(lines[1..][j]);
      assert lines[j + 1] == lines[1..][j];
    }
  }

  lemma {:induction false} LinesMatch(artifacts: seq<Artifact>)
    ensures |ArtifactLines(artifacts)| == |artifacts|
  {
    if artifacts != [] {
      LinesMatch(artifacts[1..]);
    }
  }

  /** The text of an accepted manifest decodes to that manifest if and only if no artifact path holds a
      line feed. */
  lemma DecodesBackIff(m: Identity)
    requires Accepted(m)
    ensures Decode(Text(m)) == Some(m) <==> PathsOneLine(m)
  {
    if PathsOneLine(m) {
      TextRoundTrip(m);
    } else {
      var k: nat :| k < |m.artifacts| && !OneLine(m.artifacts[k].path);
      var body, lines := ArtifactLines(m.artifacts), HeadLines(m) + ArtifactLines(m.artifacts);
      PathLineFeedShows(m.artifacts, k);
      var j :| 0 <= j < |body| && !OneLine(body[j]);
      assert lines[7 + j] == body[j];
      LinesCount(lines);
      if Decode(Text(m)).Some? { DecodedCount(Lines(Text(m))[7..]); }
    }
  }

  const HASH: string := seq(64, _ => 'a')

  const NUMBERS := Compatibility(1, 1, 1, 1)

  const ONE := Identity("1", NUMBERS, [Artifact("a\t" + HASH + "\t1\nartifact=b", HASH, 2)])
  const TWO := Identity("1", NUMBERS, [Artifact("a", HASH, 1), Artifact("b", HASH, 2)])

  lemma {:induction false} Unsplit(s: string, c: char)
    requires c !in s
    ensures Split(s, c) == [s]
  {
    if s != "" {
      assert Last(s) in s;
      Unsplit(Front(s), c);
      assert s == Front(s) + [Last(s)];
    }
  }

  lemma PlainPath(s: string)
    requires |s| > 2 || s == "a" || s == "b"
    requires '/' !in s && '\\' !in s && ':' !in s
    ensures SafePath(s)
  {
    Unsplit(s, '/');
  }

  /** A path with a line feed can spell out another artifact: two accepted manifests, one with one
      artifact and one with two, share their text. */
  lemma LineFeedForgesAnArtifact()
    ensures Accepted(ONE) && Accepted(TWO) && ONE != TWO && Text(ONE) == Text(TWO)
  {
    ForgersAreAccepted();
    var a, b := ArtifactLine(TWO.artifacts[0]), ArtifactLine(TWO.artifacts[1]);
    assert ArtifactLine(ONE.artifacts[0]) == a + ['\n'] + b;
    OneLineEach(ONE.artifacts[0]);
    assert ONE.artifacts == [ONE.artifacts[0]];
    OneLineEach(TWO.artifacts[1]);
    assert TWO.artifacts[1..] == [TWO.artifacts[1]];
    assert ArtifactLines(TWO.artifacts) == [a] + [b] == [a, b];
    JoinTwo(HeadLines(ONE), a, b);
  }

  lemma ForgersAreAccepted()
    ensures Accepted(ONE) && Accepted(TWO)
  {
    PlainPath("a\t" + HASH + "\t1\nartifact=b");
    TwoInOrder();
  }

  lemma TwoInOrder()
    ensures InOrder(TWO.artifacts) && SafePath("a") && SafePath("b")
  {
    PlainPath("a");
    PlainPath("b");
    assert Lower("a")[0] != Lower("b")[0];
  }

  lemma OneLineEach(a: Artifact)
    ensures ArtifactLines([a]) == [ArtifactLine(a)]
  {
    assert [a][1..] == [] && ArtifactLines([]) == [];
  }

  lemma {:induction false} JoinTwo(head: seq<string>, a: string, b: string)
    ensures Join(head + [a + ['\n'] + b]) == Join(head + [a, b])
  {
    if head == [] {
      var both, joined := [a, b], a + ['\n'] + b;
      assert head + both == both && head + [joined] == [joined];
      assert [joined][1..] == [] && both[1..] == [b] && [b][1..] == [];
      assert Join([joined]) == joined + ['\n'] + Join([]) && Join(both) == a + ['\n'] + Join([b]);
      assert Join([b]) == b + ['\n'] + Join([]);
      assert a + ['\n'] + (b + ['\n']) == joined + ['\n'];
    } else {
      JoinTwo(head[1..], a, b);
      assert (head + [a + ['\n'] + b])[1..] == head[1..] + [a + ['\n'] + b];
      assert (head + [a, b])[1..] == head[1..] + [a, b];
    }
  }

  // ---------------------------------------------------------------- the release id

  function CanonicalReleaseId(digest: string -> string, m: Identity): string {
    m.version + (['-'] + digest(Text(m)))
  }

  /** Under a digest that tells the two texts apart, one release id means one release. */
  lemma ReleaseIdIsIdentity(digest: string -> string, m: Identity, n: Identity)
    requires Accepted(m) && PathsOneLine(m) && Accepted(n) && PathsOneLine(n)
    requires |digest(Text(m))| == |digest(Text(n))|
    requires digest(Text(m)) == digest(Text(n)) ==> Text(m) == Text(n)
    requires CanonicalReleaseId(digest, m) == CanonicalReleaseId(digest, n)
    ensures m == n
  {
    var a, b, id := digest(Text(m)), digest(Text(n)), CanonicalReleaseId(digest, m);
    assert a == id[|id| - |a|..] && b == id[|id| - |b|..];
    TextIsInjective(m, n);
  }

  /** A release id computed from an accepted manifest is a safe one. */
  lemma ReleaseIdIsSafe(digest: string -> string, m: Identity)
    requires Accepted(m) && IsHash(digest(Text(m)))
    ensures SafeReleaseId(CanonicalReleaseId(digest, m))
  {
    var a, id := digest(Text(m)), CanonicalReleaseId(digest, m);
    assert id[|id| - 64..] == a && id[..|id| - 65] == m.version;
  }
}
