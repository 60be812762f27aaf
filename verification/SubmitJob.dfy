/**
 Preparing a second-API job: checking its artifacts, turning each into printer text
 and collating the copies.
 */
module SubmitJob {
  import opened Basics
  import opened PqFields
  import opened Raster

  const MAX_ARTIFACTS := 100
  const MAX_ARTIFACT_BYTES := 4 * 1024 * 1024
  const MAX_JOB_BYTES := 8 * 1024 * 1024

  /** A media type without its parameters: native ZPL, a raster page, or another. */
  datatype Mime = Zpl | RasterJson | Foreign(name: string)

  /** `data` is missing when its base64 text is not valid. */
  datatype Artifact = Artifact(mime: Mime, sha: string, data: Option<string>)

  datatype Request = Request(
    key: string, description: Option<string>, mediaRevision: Option<string>, copies: u16,
    reprintOf: Option<string>, artifacts: seq<Artifact>, options: Options)

  datatype Options = Null | Object(text: string) | Other

  /** A JSON value: its `copies` member as an unsigned number, and the page it is, if
      it is one. */
  datatype Json = Json(copies: Option<nat>, page: Option<RasterPage>)

  type json = j: Json | j.page.Some? ==> j.copies == Some(j.page.value.copies)
    witness Json(None, None)

  /** What is hashed to recognise a repeated submission. */
  datatype Canonical = Canonical(
    printer: string, copies: u16, mediaRevision: Option<string>, reprintOf: Option<string>,
    options: Options, artifacts: seq<(Mime, string)>)

  /** Code that is not part of this model: hashing and JSON. */
  datatype Codec = Codec(sha: string -> string, json: string -> Option<json>, fingerprint: Canonical -> string)

  datatype PreparedJob = PreparedJob(bytes: string, hash: string, labels: nat)

  datatype Problem =
    | BadKey | LongDescription | BadCopies | ArtifactCount | BadOptions | BadMime | BadSha | BadBase64
    | ArtifactTooLarge | JobTooLarge | ShaMismatch | BadJson | RasterCopies | AmbiguousCopies | BadPage
    | PreparedTooLarge

  // -------------------------------------------------------------------- one artifact

  predicate IsHexDigit(c: char) {
    '0' <= c <= '9' || 'a' <= c <= 'f' || 'A' <= c <= 'F'
  }

  function LowerChar(c: char): char {
    if 'A' <= c <= 'Z' then (c as int + 32) as char else c
  }

  function Lower(s: string): (r: string)
    ensures |r| == |s|
  {
    if s == "" then "" else Lower(s[..|s| - 1]) + [LowerChar(s[|s| - 1])]
  }

  predicate IsSha(s: string) {
    |s| == 64 && forall i | 0 <= i < |s| :: IsHexDigit(s[i])
  }

  ghost predicate RasterOk(source: string, profile: Profile, env: Codec) {
    var value := env.json(source);
    value.Some? && value.value.copies == Some(1) && value.value.page.Some? && Printable(value.value.page.value, profile)
  }

  lemma HexDigits(c: char, i: nat)
    requires i < 26
    ensures IsHexDigit(c) <==> c in "0123456789abcdefABCDEF"
    ensures LowerChar(('A' as int + i) as char) == ('a' as int + i) as char
    ensures LowerChar(c) != c ==> 'A' as int <= c as int < 'A' as int + 26
  {
  }

  ghost predicate ArtifactOk(a: Artifact, copies: nat, profile: Profile, env: Codec) {
    && !a.mime.Foreign?
    && |a.sha| == 64 && (forall c :: c in a.sha ==> IsHexDigit(c)) && a.data.Some? && |a.data.value| <= 4_194_304
    && Lower(env.sha(a.data.value)) == Lower(a.sha)
    && (if a.mime.RasterJson? then RasterOk(a.data.value, profile, env)
        else copies > 1 ==> !HasMultiCopyPq(a.data.value))
  }

  /** The format a raster artifact describes. */
  function FormatFor(a: Artifact, env: Codec): Format {
    if a.data.None? then Format(0, 0, 0, [], 0)
    else
      var value := env.json(a.data.value);
      if value.None? || value.value.page.None? || value.value.page.value.bits.None? then Format(0, 0, 0, [], 0)
      else FormatOf(value.value.page.value)
  }

  /** What is sent to the printer for one artifact. */
  function TextFor(a: Artifact, env: Codec): string {
    if a.mime.RasterJson? then FormatText(FormatFor(a, env))
    else if a.data.Some? then a.data.value else ""
  }

  method PrepareArtifact(a: Artifact, copies: nat, profile: Profile, env: Codec) returns (r: Result<string, Problem>)
    requires !a.mime.Foreign?
    requires a.data.Some?
    ensures r.Ok? ==> r.value == TextFor(a, env)
    ensures r.Ok? <==> if a.mime.RasterJson? then RasterOk(a.data.value, profile, env)
                       else copies > 1 ==> !HasMultiCopyPq(a.data.value)
  {
    var source := a.data.value;
    if a.mime.RasterJson? {
      var value := env.json(source);
      if value.None? { return Err(BadJson); }
      if value.value.copies != Some(1) { return Err(RasterCopies); }
      if value.value.page.None? { return Err(BadPage); }
      var page := EncodeRasterPage(value.value.page.value, profile);
      if page.Err? { return Err(BadPage); }
      r := Ok(page.value.bytes);
    } else {
      if copies > 1 && HasMultiCopyPq(source) { return Err(AmbiguousCopies); }
      r := Ok(source);
    }
  }

  // -------------------------------------------------------------------------- a job

  function TextsFor(artifacts: seq<Artifact>, env: Codec): seq<string> {
    seq(|artifacts|, i requires 0 <= i < |artifacts| => TextFor(artifacts[i], env))
  }

  function Total(texts: seq<string>): nat {
    if texts == [] then 0 else Total(texts[..|texts| - 1]) + |texts[|texts| - 1]|
  }

  /** `n * copies` as a sum. */
  function Times(n: nat, copies: nat): nat {
    if copies == 0 then 0 else Times(n, copies - 1) + n
  }

  lemma {:induction false} TimesIs(n: nat, copies: nat)
    ensures Times(n, copies) == n * copies
  {
    if copies > 0 {
      TimesIs(n, copies - 1);
      Distribute(n, copies - 1);
    }
  }

  lemma {:induction false} TimesGrows(n: nat, m: nat, copies: nat)
    requires n <= m
    ensures Times(n, copies) <= Times(m, copies) && Times(0, copies) == 0
  {
    if copies > 0 { TimesGrows(n, m, copies - 1); }
  }

  function SourceOf(a: Artifact): string {
    if a.data.Some? then a.data.value else ""
  }

  function Sources(artifacts: seq<Artifact>): seq<string> {
    seq(|artifacts|, i requires 0 <= i < |artifacts| => SourceOf(artifacts[i]))
  }

  /** The pages in order, `copies` times over. */
  function Repeat<T>(pages: seq<T>, copies: nat): seq<T> {
    if copies == 0 then [] else Repeat(pages, copies - 1) + pages
  }

  ghost predicate FieldsOk(request: Request) {
    && 1 <= |request.key| <= 255
    && (request.description.Some? ==> |request.description.value| <= 1000)
    && 1 <= request.copies <= 999
    && 1 <= |request.artifacts| <= 100
    && !request.options.Other?
  }

  /** Every artifact is in order, and so are both totals. */
  ghost predicate AllFit(artifacts: seq<Artifact>, copies: nat, profile: Profile, env: Codec) {
    && (forall i {:trigger ArtifactOk(artifacts[i], copies, profile, env)} ::
          0 <= i < |artifacts| ==> ArtifactOk(artifacts[i], copies, profile, env))
    && Total(Sources(artifacts)) <= 8_388_608
    && Times(Total(TextsFor(artifacts, env)), copies) <= 8_388_608
  }

  ghost predicate Accepts(request: Request, profile: Profile, env: Codec) {
    FieldsOk(request) && AllFit(request.artifacts, request.copies, profile, env)
  }

  function CanonicalOf(printer: string, request: Request): Canonical {
    Canonical(printer, request.copies, request.mediaRevision, request.reprintOf, request.options,
              seq(|request.artifacts|, i requires 0 <= i < |request.artifacts| =>
                (request.artifacts[i].mime, request.artifacts[i].sha)))
  }

  method CheckFields(request: Request) returns (problem: Option<Problem>)
    ensures problem.None? <==> FieldsOk(request)
  {
    if |request.key| == 0 || |request.key| > 255 { return Some(BadKey); }
    if request.description.Some? && |request.description.value| > 1000 { return Some(LongDescription); }
    if request.copies < 1 || request.copies > 999 { return Some(Problem.BadCopies); }
    if |request.artifacts| == 0 || |request.artifacts| > MAX_ARTIFACTS { return Some(ArtifactCount); }
    if request.options.Other? { return Some(BadOptions); }
    problem := None;
  }

  method CheckArtifact(a: Artifact, before: nat, env: Codec) returns (problem: Option<Problem>)
    ensures problem.None? <==>
              && !a.mime.Foreign?
              && |a.sha| == 64 && (forall c :: c in a.sha ==> IsHexDigit(c))
              && a.data.Some? && |a.data.value| <= 4_194_304
              && Lower(env.sha(a.data.value)) == Lower(a.sha)
              && before + |a.data.value| <= MAX_JOB_BYTES
  {
    if a.mime.Foreign? { return Some(BadMime); }
    if !IsSha(a.sha) { return Some(BadSha); }
    if a.data.None? { return Some(Problem.BadBase64); }
    if |a.data.value| > MAX_ARTIFACT_BYTES { return Some(ArtifactTooLarge); }
    if before + |a.data.value| > MAX_JOB_BYTES { return Some(JobTooLarge); }
    if Lower(env.sha(a.data.value)) != Lower(a.sha) { return Some(ShaMismatch); }
    problem := None;
  }

  /** What one more page adds: its text, the source bytes and the prepared bytes so far. */
  method AddPage(a: Artifact, copies: nat, profile: Profile, env: Codec, sourceBytes: nat, preparedBytes: nat)
      returns (r: Result<(string, nat, nat), Problem>)
    ensures r.Ok? <==> PageFits(a, copies, profile, env, sourceBytes, preparedBytes + |TextFor(a, env)|)
    ensures r.Ok? ==>
              r.value == (TextFor(a, env), sourceBytes + |a.data.value|, preparedBytes + |TextFor(a, env)|)
  {
    var problem := CheckArtifact(a, sourceBytes, env);
    if problem.Some? { return Err(problem.value); }
    var page := PrepareArtifact(a, copies, profile, env);
    if page.Err? { return Err(page.error); }
    TimesIs(preparedBytes + |page.value|, copies);
    if (preparedBytes + |page.value|) * copies > MAX_JOB_BYTES { return Err(PreparedTooLarge); }
    r := Ok((page.value, sourceBytes + |a.data.value|, preparedBytes + |page.value|));
  }

  /** The page is in order, and the job with it is not too large before or after. */
  ghost predicate PageFits(a: Artifact, copies: nat, profile: Profile, env: Codec, sourceBytes: nat, size: nat) {
    && ArtifactOk(a, copies, profile, env)
    && sourceBytes + |a.data.value| <= MAX_JOB_BYTES
    && Times(size, copies) <= MAX_JOB_BYTES
  }

  /** `ok` says of each artifact whether it is in order, `sources` and `texts` what it
      comes as and what is made of it. */
  ghost predicate Judged(ok: seq<bool>, sources: seq<string>, texts: seq<string>,
                         artifacts: seq<Artifact>, copies: nat, profile: Profile, env: Codec) {
    && |ok| == |sources| == |texts| == |artifacts|
    && forall i {:trigger ArtifactOk(artifacts[i], copies, profile, env)} :: 0 <= i < |artifacts| ==>
         && ok[i] == ArtifactOk(artifacts[i], copies, profile, env)
         && sources[i] == SourceOf(artifacts[i]) && texts[i] == TextFor(artifacts[i], env)
  }

  /** The first `n` artifacts are in order, and so are the sizes up to there. */
  ghost predicate Within(ok: seq<bool>, sources: seq<string>, texts: seq<string>, copies: nat, n: nat)
    requires n <= |ok| == |sources| == |texts|
  {
    && (forall i :: 0 <= i < n ==> ok[i])
    && Total(sources[..n]) <= MAX_JOB_BYTES
    && Times(Total(texts[..n]), copies) <= MAX_JOB_BYTES
  }

  lemma WithinStep(ok: seq<bool>, sources: seq<string>, texts: seq<string>, copies: nat, n: nat)
    requires n < |ok| == |sources| == |texts|
    ensures Total(sources[..n + 1]) == Total(sources[..n]) + |sources[n]|
    ensures Total(texts[..n + 1]) == Total(texts[..n]) + |texts[n]|
    ensures Within(ok, sources, texts, copies, n + 1)
       <==> Within(ok, sources, texts, copies, n)
            && ok[n] && Total(sources[..n + 1]) <= MAX_JOB_BYTES
            && Times(Total(texts[..n + 1]), copies) <= MAX_JOB_BYTES
  {
    TotalStep(sources, n);
    TotalStep(texts, n);
    TimesGrows(Total(texts[..n]), Total(texts[..n + 1]), copies);
  }

  lemma {:induction false} WithinShrinks(ok: seq<bool>, sources: seq<string>, texts: seq<string>, copies: nat, n: nat)
    requires n <= |ok| == |sources| == |texts| && !Within(ok, sources, texts, copies, n)
    ensures !Within(ok, sources, texts, copies, |ok|)
    decreases |ok| - n
  {
    if n < |ok| {
      WithinStep(ok, sources, texts, copies, n);
      WithinShrinks(ok, sources, texts, copies, n + 1);
    }
  }

  lemma WithinMeansFit(ok: seq<bool>, artifacts: seq<Artifact>, copies: nat, profile: Profile, env: Codec)
    requires Judged(ok, Sources(artifacts), TextsFor(artifacts, env), artifacts, copies, profile, env)
    ensures Within(ok, Sources(artifacts), TextsFor(artifacts, env), copies, |ok|)
       <==> AllFit(artifacts, copies, profile, env)
  {
    assert Sources(artifacts)[..|ok|] == Sources(artifacts);
    assert TextsFor(artifacts, env)[..|ok|] == TextsFor(artifacts, env);
    forall i | 0 <= i < |ok| ensures ok[i] == ArtifactOk(artifacts[i], copies, profile, env) {
    }
  }

  /** Artifact `n`, in these terms. */
  method JudgePage(ghost ok: seq<bool>, ghost sources: seq<string>, ghost texts: seq<string>,
                   artifacts: seq<Artifact>, copies: nat, profile: Profile, env: Codec,
                   n: nat, sourceBytes: nat, preparedBytes: nat)
      returns (r: Result<(string, nat, nat), Problem>)
    requires n < |artifacts| && Judged(ok, sources, texts, artifacts, copies, profile, env)
    ensures r.Ok? <==> ok[n] && sourceBytes + |sources[n]| <= MAX_JOB_BYTES
                       && Times(preparedBytes + |texts[n]|, copies) <= MAX_JOB_BYTES
    ensures r.Ok? ==> r.value == (texts[n], sourceBytes + |sources[n]|, preparedBytes + |texts[n]|)
  {
    assert ok[n] == ArtifactOk(artifacts[n], copies, profile, env);
    r := AddPage(artifacts[n], copies, profile, env, sourceBytes, preparedBytes);
  }

  method PagesWithin(ghost ok: seq<bool>, ghost sources: seq<string>, ghost texts: seq<string>,
                     artifacts: seq<Artifact>, copies: nat, profile: Profile, env: Codec)
      returns (r: Result<seq<string>, Problem>)
    requires Judged(ok, sources, texts, artifacts, copies, profile, env)
    ensures r.Ok? <==> Within(ok, sources, texts, copies, |ok|)
    ensures r.Ok? ==> r.value == texts
  {
    var pages: seq<string>, sourceBytes, preparedBytes := [], 0, 0;
    TimesGrows(0, 0, copies);
    for n := 0 to |artifacts|
      invariant pages == texts[..n] && sourceBytes == Total(sources[..n]) && preparedBytes == Total(texts[..n])
      invariant Within(ok, sources, texts, copies, n)
    {
      WithinStep(ok, sources, texts, copies, n);
      var page := JudgePage(ok, sources, texts, artifacts, copies, profile, env, n, sourceBytes, preparedBytes);
      if page.Err? {
        WithinShrinks(ok, sources, texts, copies, n + 1);
        return Err(page.error);
      }
      pages := pages + [page.value.0];
      sourceBytes, preparedBytes := page.value.1, page.value.2;
    }
    assert texts[..|artifacts|] == texts;
    r := Ok(pages);
  }

  /** All pages, or the first thing that is wrong with one of them. The size checks made
      after each page ask no more than one at the end would. */
  method PreparePages(artifacts: seq<Artifact>, copies: nat, profile: Profile, env: Codec)
      returns (r: Result<seq<string>, Problem>)
    ensures r.Ok? <==> AllFit(artifacts, copies, profile, env)
    ensures r.Ok? ==> r.value == TextsFor(artifacts, env)
  {
    ghost var ok := seq(|artifacts|, i requires 0 <= i < |artifacts| =>
                          ArtifactOk(artifacts[i], copies, profile, env));
    WithinMeansFit(ok, artifacts, copies, profile, env);
    r := PagesWithin(ok, Sources(artifacts), TextsFor(artifacts, env), artifacts, copies, profile, env);
  }

  /** The pages of a request that is accepted. */
  method AcceptPages(request: Request, profile: Profile, env: Codec) returns (r: Result<seq<string>, Problem>)
    ensures r.Ok? <==> Accepts(request, profile, env)
    ensures r.Ok? ==> r.value == TextsFor(request.artifacts, env)
                      && Times(Total(r.value), request.copies) <= MAX_JOB_BYTES
  {
    var problem := CheckFields(request);
    if problem.Some? { return Err(problem.value); }
    r := PreparePages(request.artifacts, request.copies, profile, env);
  }

  /** A job is accepted exactly when all its parts are, and then it is its pages in
      order, that many times; its size is within bounds and cannot overflow. */
  method PrepareJob(printer: string, request: Request, profile: Profile, env: Codec)
      returns (r: Result<PreparedJob, Problem>)
    ensures r.Ok? <==> Accepts(request, profile, env)
    ensures r.Ok? ==>
              && r.value.bytes == Concat(Repeat(TextsFor(request.artifacts, env), request.copies))
              && |r.value.bytes| == Times(Total(TextsFor(request.artifacts, env)), request.copies) <= MAX_JOB_BYTES
              && |r.value.bytes| <= 8_388_608
              && r.value.labels == |request.artifacts| * request.copies
              && r.value.hash == env.fingerprint(CanonicalOf(printer, request))
  {
    var pages := AcceptPages(request, profile, env);
    if pages.Err? { return Err(pages.error); }
    var bytes := Collate(pages.value, request.copies);
    var hash := env.fingerprint(CanonicalOf(printer, request));
    r := Ok(PreparedJob(bytes, hash, |request.artifacts| * request.copies));
  }

  /** Whole sets one after the other, not page by page. */
  method Collate(pages: seq<string>, copies: nat) returns (bytes: string)
    ensures bytes == Concat(Repeat(pages, copies)) && |bytes| == Times(Total(pages), copies)
  {
    bytes := "";
    for c := 0 to copies
      invariant bytes == Concat(Repeat(pages, c)) && |bytes| == Times(Total(pages), c)
    {
      assert Repeat(pages, c) + pages[..0] == Repeat(pages, c);
      for n := 0 to |pages|
        invariant bytes == Concat(Repeat(pages, c) + pages[..n])
        invariant |bytes| == Times(Total(pages), c) + Total(pages[..n])
      {
        TotalStep(pages, n);
        ConcatSnoc(Repeat(pages, c) + pages[..n], pages[n]);
        assert Repeat(pages, c) + pages[..n] + [pages[n]] == Repeat(pages, c) + pages[..n + 1];
        bytes := bytes + pages[n];
      }
      assert pages[..|pages|] == pages;
    }
  }

  // -------------------------------------------------------------------------- lemmas

  lemma Distribute(a: nat, c: nat)
    ensures a * c + a == a * (c + 1)
  {
  }

  lemma TotalStep(texts: seq<string>, n: nat)
    requires n < |texts|
    ensures Total(texts[..n + 1]) == Total(texts[..n]) + |texts[n]|
  {
    assert texts[..n + 1][..n] == texts[..n];
  }

  lemma {:induction false} ConcatSnoc(texts: seq<string>, last: string)
    ensures Concat(texts + [last]) == Concat(texts) + last
    decreases |texts|
  {
    if texts != [] {
      ConcatSnoc(texts[1..], last);
      assert (texts + [last])[1..] == texts[1..] + [last];
    } else {
      assert (texts + [last])[1..] == [];
    }
  }

  lemma {:induction false} RepeatLength<T>(pages: seq<T>, copies: nat)
    ensures |Repeat(pages, copies)| == |pages| * copies
  {
    if copies > 0 {
      RepeatLength(pages, copies - 1);
      Distribute(|pages|, copies - 1);
    }
  }

  ghost predicate EachSays(texts: seq<string>, fs: seq<Format>) {
    |texts| == |fs| && forall i :: 0 <= i < |fs| ==> Says(texts[i], fs[i]) && fs[i].copies == 1
  }

  lemma {:induction false} RepeatSays(texts: seq<string>, fs: seq<Format>, copies: nat)
    requires EachSays(texts, fs)
    ensures EachSays(Repeat(texts, copies), Repeat(fs, copies))
  {
    if copies > 0 { RepeatSays(texts, fs, copies - 1); }
  }

  function FormatsFor(artifacts: seq<Artifact>, env: Codec): seq<Format> {
    seq(|artifacts|, i requires 0 <= i < |artifacts| => FormatFor(artifacts[i], env))
  }

  /** The stream of an all-raster job holds exactly `labels` formats, one for each page
      of each copy in collated order, and each asks for a single print. */
  lemma RasterJobPrintsItsLabels(request: Request, profile: Profile, env: Codec)
    requires Accepts(request, profile, env)
    requires forall i :: 0 <= i < |request.artifacts| ==> request.artifacts[i].mime.RasterJson?
    ensures var formats := Repeat(FormatsFor(request.artifacts, env), request.copies);
            && ReadStream(Concat(Repeat(TextsFor(request.artifacts, env), request.copies))) == Some(formats)
            && |formats| == |request.artifacts| * request.copies
            && forall i :: 0 <= i < |formats| ==> formats[i].copies == 1
  {
    var texts, formats := TextsFor(request.artifacts, env), FormatsFor(request.artifacts, env);
    forall i | 0 <= i < |formats| ensures Says(texts[i], formats[i]) && formats[i].copies == 1 {
      assert ArtifactOk(request.artifacts[i], request.copies, profile, env);
      FormatSays(formats[i]);
    }
    RepeatSays(texts, formats, request.copies);
    RepeatLength(formats, request.copies);
    StreamReads(Repeat(texts, request.copies), Repeat(formats, request.copies));
  }

  /** Recognising a repeat by its hash is safe: with collision-free hashing, accepted
      requests with equal hashes are for the same printer and media revision, with the same
      options, and come to the same bytes and the same labels. */
  lemma EqualHashMeansEqualJob(printer: string, other: string, a: Request, b: Request, profile: Profile, env: Codec)
    requires Accepts(a, profile, env) && Accepts(b, profile, env)
    requires forall x: Canonical, y: Canonical :: env.fingerprint(x) == env.fingerprint(y) ==> x == y
    requires forall x: string, y: string :: Lower(env.sha(x)) == Lower(env.sha(y)) ==> x == y
    requires env.fingerprint(CanonicalOf(printer, a)) == env.fingerprint(CanonicalOf(other, b))
    ensures printer == other && a.mediaRevision == b.mediaRevision && a.reprintOf == b.reprintOf
    ensures a.options == b.options
    ensures a.copies == b.copies && |a.artifacts| == |b.artifacts|
    ensures TextsFor(a.artifacts, env) == TextsFor(b.artifacts, env)
  {
    var x, y := CanonicalOf(printer, a), CanonicalOf(other, b);
    assert |x.artifacts| == |y.artifacts|;
    forall i | 0 <= i < |a.artifacts| ensures TextFor(a.artifacts[i], env) == TextFor(b.artifacts[i], env) {
      assert x.artifacts[i] == y.artifacts[i];
      assert ArtifactOk(a.artifacts[i], a.copies, profile, env) && ArtifactOk(b.artifacts[i], b.copies, profile, env);
    }
  }

  /** Pages that pass the ^PQ check and are not open at their end still pass it when they
      are collated. */
  lemma {:induction false} ClosedPagesJoin(pages: seq<string>)
    requires forall i :: 0 <= i < |pages| ==> !HasMultiCopyPq(pages[i]) && !Open(pages[i])
    ensures !HasMultiCopyPq(Concat(pages))
    decreases |pages|
  {
    if pages == [] {
      NoCaret("");
    } else {
      ClosedPagesJoin(pages[1..]);
      JoiningIsSafeIff(pages[0]);
    }
  }

  lemma {:induction false} RepeatedFrom<T>(pages: seq<T>, copies: nat)
    ensures forall x :: x in Repeat(pages, copies) ==> x in pages
  {
    if copies > 0 { RepeatedFrom(pages, copies - 1); }
  }

  /** So a whole job has no multi-copy field if each of its pages is closed. */
  lemma CollatedJobStaysSingle(pages: seq<string>, copies: nat)
    requires forall p :: p in pages ==> !HasMultiCopyPq(p) && !Open(p)
    ensures !HasMultiCopyPq(Concat(Repeat(pages, copies)))
  {
    RepeatedFrom(pages, copies);
    ClosedPagesJoin(Repeat(pages, copies));
  }
}
