/**
 * The metadata worker (metadata_worker/src/main.rs): for each mint job it
 * resolves the token URI, fetches and normalises the JSON metadata, caches the
 * image and the animation in S3 and decides which rows to insert. Network and
 * storage results arrive as parameters; SHA-256 is the parameter `sha`.
 */
module MetadataWorker {
  import opened Wrappers
  import opened Text
  import opened Json

  const IpfsScheme := "ipfs://"
  const ArweaveScheme := "ar://"
  const IpfsGateway := "https://ipfs.io/ipfs/"
  const ArweaveGateway := "https://arweave.net/"

  /** Rust's `s.trim_start_matches(p)`: every leading copy of `p` is removed. */
  function TrimStartMatches(s: string, p: string): string
    requires p != ""
    decreases |s|
  {
    if StartsWith(s, p) then TrimStartMatches(s[|p|..], p) else s
  }

  /** What is left is a suffix of `s` that does not start with `p`. */
  lemma {:induction false} TrimStartMatchesShape(s: string, p: string)
    requires p != ""
    decreases |s|
    ensures var r := TrimStartMatches(s, p);
      |r| <= |s| && r == s[|s| - |r|..] && !StartsWith(r, p)
  {
    if StartsWith(s, p) {
      TrimStartMatchesShape(s[|p|..], p);
      var r := TrimStartMatches(s, p);
      assert s[|p|..][|s| - |p| - |r|..] == s[|s| - |r|..];
    }
  }

  /** What was removed is a whole number of copies of `p`. */
  lemma {:induction false} TrimRemovesCopies(s: string, p: string) returns (n: nat)
    requires p != ""
    decreases |s|
    ensures s == Repeat(p, n) + TrimStartMatches(s, p)
  {
    if StartsWith(s, p) {
      var rest := s[|p|..];
      var m := TrimRemovesCopies(rest, p);
      n := m + 1;
      TrimStep(s, p);
      RepeatUnfolds(p, n, TrimStartMatches(rest, p));
    } else {
      n := 0;
    }
  }

  /** One step of the stripping: `s` is a copy of `p` and a rest, and stripping `s` is stripping the rest. */
  lemma TrimStep(s: string, p: string)
    requires p != "" && StartsWith(s, p)
    ensures s == p + s[|p|..] && TrimStartMatches(s, p) == TrimStartMatches(s[|p|..], p)
  {
  }

  /** Stripping copies of `p` from a copy of `p` in front of `s` gives what stripping `s` gives. */
  lemma {:induction false} TrimStartMatchesOneMore(p: string, s: string)
    requires p != ""
    ensures TrimStartMatches(p + s, p) == TrimStartMatches(s, p)
  {
    assert (p + s)[..|p|] == p;
    assert (p + s)[|p|..] == s;
  }

  /** `resolve_uri`: IPFS and Arweave URIs are rewritten to their public HTTP gateways. */
  function ResolveUri(uri: string): (r: string)
    ensures StartsWith(uri, IpfsScheme) ==> r == IpfsGateway + TrimStartMatches(uri, IpfsScheme)
    ensures !StartsWith(uri, IpfsScheme) && StartsWith(uri, ArweaveScheme) ==>
      r == ArweaveGateway + TrimStartMatches(uri, ArweaveScheme)
    ensures !StartsWith(uri, IpfsScheme) && !StartsWith(uri, ArweaveScheme) ==> r == uri
    ensures !StartsWith(r, IpfsScheme) && !StartsWith(r, ArweaveScheme)
  {
    if StartsWith(uri, IpfsScheme) then
      var r := IpfsGateway + TrimStartMatches(uri, IpfsScheme);
      NotPrefix(r, IpfsScheme);
      NotPrefix(r, ArweaveScheme);
      r
    else if StartsWith(uri, ArweaveScheme) then
      var r := ArweaveGateway + TrimStartMatches(uri, ArweaveScheme);
      NotPrefix(r, IpfsScheme);
      NotPrefix(r, ArweaveScheme);
      r
    else
      uri
  }

  /** A resolved URI is left as it is by a second resolution. */
  lemma ResolveUriIdempotent(uri: string)
    ensures ResolveUri(ResolveUri(uri)) == ResolveUri(uri)
  {
  }

  /** Stripping `p` from `n` copies of it in front of a rest that does not start with `p` leaves the rest. */
  lemma {:induction false} TrimStacked(p: string, n: nat, rest: string)
    requires p != "" && !StartsWith(rest, p)
    ensures TrimStartMatches(Repeat(p, n) + rest, p) == rest
  {
    if n == 0 {
      assert Repeat(p, n) + rest == rest;
    } else {
      var t := Repeat(p, n - 1) + rest;
      RepeatUnfolds(p, n, rest);
      TrimStartMatchesOneMore(p, t);
      TrimStacked(p, n - 1, rest);
      calc {
        TrimStartMatches(Repeat(p, n) + rest, p);
        TrimStartMatches(p + t, p);
        TrimStartMatches(t, p);
        rest;
      }
    }
  }

  lemma RepeatUnfolds(p: string, n: nat, rest: string)
    requires n >= 1
    ensures Repeat(p, n) + rest == p + (Repeat(p, n - 1) + rest)
  {
  }

  /** Any number of stacked `ipfs://` prefixes all go: the gateway sees only the content path. */
  lemma StackedIpfsSchemes(n: nat, path: string)
    requires n >= 1 && !StartsWith(path, IpfsScheme)
    ensures ResolveUri(Repeat(IpfsScheme, n) + path) == IpfsGateway + path
  {
    var uri := Repeat(IpfsScheme, n) + path;
    assert uri == IpfsScheme + (Repeat(IpfsScheme, n - 1) + path);
    assert uri[..|IpfsScheme|] == IpfsScheme;
    TrimStacked(IpfsScheme, n, path);
  }

  /** `n` copies of `p`, back to back. */
  function Repeat(p: string, n: nat): string {
    if n == 0 then "" else p + Repeat(p, n - 1)
  }

  /** `rfind('.')`: the index of the last dot, if any. */
  function LastDot(s: string): (r: Option<nat>)
    ensures r.Some? ==> r.value < |s| && s[r.value] == '.' && forall k :: r.value < k < |s| ==> s[k] != '.'
    ensures r.None? ==> forall k :: 0 <= k < |s| ==> s[k] != '.'
  {
    if s == "" then None
    else if s[|s| - 1] == '.' then Some(|s| - 1)
    else LastDot(s[..|s| - 1])
  }

  /**
   * The file extension for the S3 key: what follows the last dot of the resolved
   * URL, or "bin" when that is empty or holds a path separator. Without any
   * dot the suffix starts at the end of the URL, so it is empty and gives "bin".
   */
  function Extension(resolved: string): (ext: string)
    ensures ext != [] && '/' !in ext && '\\' !in ext && '.' !in ext
    ensures ext == "bin" ||
      (|ext| < |resolved| && resolved[|resolved| - |ext| - 1] == '.' && resolved[|resolved| - |ext|..] == ext)
  {
    var extPos := match LastDot(resolved) case Some(i) => i + 1 case None => |resolved|;
    var ext := resolved[extPos..];
    if ext == [] || '/' in ext || '\\' in ext then "bin" else
      assert LastDot(resolved).Some?;
      assert forall c :: c in ext ==> c != '.';
      ext
  }

  /** A URL ending in a dot and a clean suffix yields that suffix as the extension. */
  lemma ExtensionAfterLastDot(stem: string, e: string)
    requires e != [] && '/' !in e && '\\' !in e && '.' !in e
    ensures Extension(stem + "." + e) == e
  {
    var s := stem + "." + e;
    var i := |stem|;
    assert s[i] == '.';
    assert forall k :: i < k < |s| ==> s[k] == e[k - i - 1];
    assert forall k :: i < k < |s| ==> s[k] != '.';
    var d := LastDot(s);
    assert d.Some?;
    assert d.value == i;
    assert s[i + 1..] == e;
  }

  /** `format!("{}.{}", hash, ext)`: the object key is the URL hash with the extension. */
  function S3Key(hash: string, ext: string): (key: string)
    ensures |key| == |hash| + 1 + |ext|
    ensures key[..|hash|] == hash && key[|hash|] == '.' && key[|hash| + 1..] == ext
  {
    hash + "." + ext
  }

  /** The virtual-hosted S3 URL `upload_to_s3` returns for a stored object. */
  function S3Url(bucket: string, key: string): (url: string)
    ensures |key| < |url|
    ensures StartsWith(url, "https://" + bucket + ".s3.amazonaws.com/") && url[|url| - |key|..] == key
    ensures |url| == |"https://" + bucket + ".s3.amazonaws.com/"| + |key|
  {
    "https://" + bucket + ".s3.amazonaws.com/" + key
  }

  /** The cached copy keeps the extension the worker picked for the media. */
  lemma CachedUrlKeepsExtension(bucket: string, hash: string, resolved: string)
    ensures Extension(S3Url(bucket, S3Key(hash, Extension(resolved)))) == Extension(resolved)
  {
    var ext := Extension(resolved);
    assert S3Url(bucket, S3Key(hash, ext)) == ("https://" + bucket + ".s3.amazonaws.com/" + hash) + "." + ext;
    ExtensionAfterLastDot("https://" + bucket + ".s3.amazonaws.com/" + hash, ext);
  }

  /** Why a fetch, a cache or an upload gave up; URLs are the resolved ones. */
  datatype WorkerError =
    | HttpError(url: string)
    | NonOkStatus(status: int, url: string)
    | InvalidJson(url: string)
    | BodyReadError(url: string)
    | UploadFailed
    | S3NotConfigured

  /** What the HTTP client saw: no response at all, or a status and a body (`None`: unreadable). */
  datatype Response<T> = SendFailed | Responded(status: int, body: Option<T>)

  /**
   * The storage settings `main` reads once: a client exists only when region,
   * access key and secret key are all set, and the bucket is optional on its own.
   */
  datatype S3Config = S3Config(hasClient: bool, bucket: Option<string>)

  /** `upload_to_s3`: the object URL once `put_object` succeeded. */
  function UploadToS3(bucket: string, key: string, putOk: bool): (r: Result<string, WorkerError>)
    ensures r.Ok? <==> putOk
    ensures r.Ok? ==> r.value == S3Url(bucket, key)
  {
    if putOk then Ok(S3Url(bucket, key)) else Err(UploadFailed)
  }

  datatype CachedMedia = CachedMedia(cachedUrl: string, resolvedUrl: string, backend: string)

  /**
   * `fetch_and_cache_media`: download the resolved URL and store it in S3 under
   * the hash of the original URL. There is no other backend, so it succeeds
   * only when the download and the upload both do.
   */
  function FetchAndCacheMedia(url: string, response: Response<seq<bv8>>, s3: S3Config, putOk: bool,
                              sha: string -> string): (r: Result<CachedMedia, WorkerError>)
    ensures r.Ok? <==>
      response.Responded? && response.status == 200 && response.body.Some? && s3.hasClient && s3.bucket.Some? && putOk
    ensures r.Ok? ==>
      r.value == CachedMedia(S3Url(s3.bucket.value, S3Key(sha(url), Extension(ResolveUri(url)))), ResolveUri(url), "s3")
    ensures response.SendFailed? ==> r == Err(HttpError(ResolveUri(url)))
    ensures response.Responded? && response.status != 200 ==> r == Err(NonOkStatus(response.status, ResolveUri(url)))
    ensures response.Responded? && response.status == 200 && response.body.None? ==> r == Err(BodyReadError(ResolveUri(url)))
    ensures response.Responded? && response.status == 200 && response.body.Some? && !(s3.hasClient && s3.bucket.Some?) ==>
      r == Err(S3NotConfigured)
    ensures response.Responded? && response.status == 200 && response.body.Some? && s3.hasClient && s3.bucket.Some? && !putOk ==>
      r == Err(UploadFailed)
  {
    var resolved := ResolveUri(url);
    match response
    case SendFailed => Err(HttpError(resolved))
    case Responded(status, body) =>
      if status != 200 then Err(NonOkStatus(status, resolved))
      else if body.None? then Err(BodyReadError(resolved))
      else
        var hash := sha(url);
        var ext := Extension(resolved);
        if s3.hasClient && s3.bucket.Some? then
          match UploadToS3(s3.bucket.value, S3Key(hash, ext), putOk)
          case Ok(s3Url) => Ok(CachedMedia(s3Url, resolved, "s3"))
          case Err(_) => Err(UploadFailed)
        else
          Err(S3NotConfigured)
  }

  /** `NormalizedMetadata`: the well-known string fields, the attributes as given, and the whole document. */
  datatype NormalizedMetadata = NormalizedMetadata(
    name: Option<string>,
    description: Option<string>,
    image: Option<string>,
    animationUrl: Option<string>,
    attributes: Option<Json>,
    raw: Json)

  /** A field is taken when the document has it as a string; anything else counts as absent. */
  predicate StringField(raw: Json, key: string, field: Option<string>) {
    && (field.Some? <==> (Get(raw, key).Some? && Get(raw, key).value.JString?))
    && (field.Some? ==> Get(raw, key) == Some(JString(field.value)))
  }

  /** The field extraction at the end of `fetch_and_normalize_metadata`. */
  function NormalizeMetadata(raw: Json): (m: NormalizedMetadata)
    ensures StringField(raw, "name", m.name) && StringField(raw, "description", m.description)
    ensures StringField(raw, "image", m.image) && StringField(raw, "animation_url", m.animationUrl)
    ensures m.attributes == Get(raw, "attributes") && m.raw == raw
  {
    NormalizedMetadata(GetStr(raw, "name"), GetStr(raw, "description"), GetStr(raw, "image"),
                       GetStr(raw, "animation_url"), Get(raw, "attributes"), raw)
  }

  /** `fetch_and_normalize_metadata`: a 200 response with a JSON body, normalised. */
  function FetchAndNormalizeMetadata(uri: string, response: Response<Json>): (r: Result<NormalizedMetadata, WorkerError>)
    ensures r.Ok? <==> response.Responded? && response.status == 200 && response.body.Some?
    ensures r.Ok? ==> r.value == NormalizeMetadata(response.body.value) && r.value.raw == response.body.value
    ensures response.SendFailed? ==> r == Err(HttpError(ResolveUri(uri)))
    ensures response.Responded? && response.status != 200 ==> r == Err(NonOkStatus(response.status, ResolveUri(uri)))
    ensures response.Responded? && response.status == 200 && response.body.None? ==> r == Err(InvalidJson(ResolveUri(uri)))
  {
    var resolved := ResolveUri(uri);
    match response
    case SendFailed => Err(HttpError(resolved))
    case Responded(status, body) =>
      if status != 200 then Err(NonOkStatus(status, resolved))
      else if body.None? then Err(InvalidJson(resolved))
      else Ok(NormalizeMetadata(body.value))
  }

  /** `NftMintJob` as it arrives from the queue. */
  datatype MintJob = MintJob(contractAddress: string, tokenId: string, chain: string, metadataUri: Option<string>)

  /** A row of `nft_metadata`. */
  datatype MetadataRow = MetadataRow(
    contractAddress: string,
    tokenId: string,
    chain: string,
    name: Option<string>,
    description: Option<string>,
    attributes: Option<Json>,
    rawMetadata: Json)

  /** A row of `nft_media`. */
  datatype MediaRow = MediaRow(
    contractAddress: string,
    tokenId: string,
    mediaType: string,
    originalUrl: string,
    cachedUrl: string,
    storageBackend: string)

  datatype DbWrite = InsertMetadata(metadata: MetadataRow) | InsertMedia(media: MediaRow)

  /** Everything the outside world answers while one job is processed. */
  datatype JobWorld = JobWorld(
    s3: S3Config,
    metadata: Response<Json>,
    image: Response<seq<bv8>>,
    imagePutOk: bool,
    animation: Response<seq<bv8>>,
    animationPutOk: bool)

  /** The media insert for one URL, if there is a URL and caching it succeeded. */
  function MediaWrites(job: MintJob, mediaType: string, url: Option<string>, response: Response<seq<bv8>>,
                       s3: S3Config, putOk: bool, sha: string -> string): (w: seq<DbWrite>)
    ensures |w| <= 1
    ensures w != [] <==> url.Some? && FetchAndCacheMedia(url.value, response, s3, putOk, sha).Ok?
    ensures w != [] ==> s3.bucket.Some? && w[0] == InsertMedia(MediaRow(job.contractAddress, job.tokenId, mediaType,
      url.value, S3Url(s3.bucket.value, S3Key(sha(url.value), Extension(ResolveUri(url.value)))), "s3"))
  {
    match url
    case None => []
    case Some(u) =>
      match FetchAndCacheMedia(u, response, s3, putOk, sha)
      case Ok(cached) =>
        [InsertMedia(MediaRow(job.contractAddress, job.tokenId, mediaType, u, cached.cachedUrl, cached.backend))]
      case Err(_) => []
  }

  /**
   * The inserts `main` attempts for one job, in order: the metadata row, then the
   * image, then the animation. A failed insert is only logged, so later inserts
   * are attempted regardless.
   */
  function PlanJob(job: MintJob, world: JobWorld, sha: string -> string): (writes: seq<DbWrite>)
    ensures |writes| <= 3
    ensures writes == [] <==> job.metadataUri.None? || FetchAndNormalizeMetadata(job.metadataUri.value, world.metadata).Err?
    ensures writes != [] ==>
      var m := FetchAndNormalizeMetadata(job.metadataUri.value, world.metadata).value;
      writes[0] == InsertMetadata(MetadataRow(job.contractAddress, job.tokenId, job.chain,
                                              m.name, m.description, m.attributes, m.raw))
  {
    match job.metadataUri
    case None => []
    case Some(uri) =>
      match FetchAndNormalizeMetadata(uri, world.metadata)
      case Err(_) => []
      case Ok(m) =>
        [MetadataInsert(job, m)]
        + MediaWrites(job, "image", m.image, world.image, world.s3, world.imagePutOk, sha)
        + MediaWrites(job, "animation", m.animationUrl, world.animation, world.s3, world.animationPutOk, sha)
  }

  /** A media row written for `job` from the URL `url` of its metadata. */
  predicate MediaRowFor(job: MintJob, m: NormalizedMetadata, s3: S3Config, sha: string -> string, w: DbWrite) {
    && w.InsertMedia?
    && w.media.contractAddress == job.contractAddress
    && w.media.tokenId == job.tokenId
    && w.media.storageBackend == "s3"
    && ((w.media.mediaType == "image" && m.image == Some(w.media.originalUrl)) ||
        (w.media.mediaType == "animation" && m.animationUrl == Some(w.media.originalUrl)))
    && s3.bucket.Some?
    && w.media.cachedUrl ==
       S3Url(s3.bucket.value, S3Key(sha(w.media.originalUrl), Extension(ResolveUri(w.media.originalUrl))))
  }

  /** The metadata row of a job, from its normalised metadata. */
  function MetadataInsert(job: MintJob, m: NormalizedMetadata): DbWrite {
    InsertMetadata(MetadataRow(job.contractAddress, job.tokenId, job.chain, m.name, m.description, m.attributes, m.raw))
  }

  /** The plan of a job whose metadata arrived: its row, then the image's and the animation's. */
  lemma PlanShape(job: MintJob, world: JobWorld, sha: string -> string)
    requires job.metadataUri.Some? && FetchAndNormalizeMetadata(job.metadataUri.value, world.metadata).Ok?
    ensures var m := FetchAndNormalizeMetadata(job.metadataUri.value, world.metadata).value;
      PlanJob(job, world, sha) ==
        [MetadataInsert(job, m)] +
        MediaWrites(job, "image", m.image, world.image, world.s3, world.imagePutOk, sha) +
        MediaWrites(job, "animation", m.animationUrl, world.animation, world.s3, world.animationPutOk, sha)
  {
  }

  /** The write for one URL of the metadata is a media row for the job, of the given type. */
  lemma MediaWriteIsRowFor(job: MintJob, m: NormalizedMetadata, mediaType: string, url: Option<string>,
                           response: Response<seq<bv8>>, s3: S3Config, putOk: bool, sha: string -> string)
    requires (mediaType == "image" && url == m.image) || (mediaType == "animation" && url == m.animationUrl)
    requires MediaWrites(job, mediaType, url, response, s3, putOk, sha) != []
    ensures var w := MediaWrites(job, mediaType, url, response, s3, putOk, sha)[0];
      MediaRowFor(job, m, s3, sha, w) && w.media.mediaType == mediaType
  {
  }

  /**
   * Every media row of a job belongs to the job's token, is stored in S3 under
   * the hash of its original URL, and records as that URL the metadata's own
   * `image` (type "image") or `animation_url` (type "animation"); an image row
   * comes before an animation row.
   */
  lemma MediaRowsOfJob(job: MintJob, world: JobWorld, sha: string -> string)
    requires PlanJob(job, world, sha) != []
    ensures var writes := PlanJob(job, world, sha);
      var m := FetchAndNormalizeMetadata(job.metadataUri.value, world.metadata).value;
      forall i :: 1 <= i < |writes| ==>
        && MediaRowFor(job, m, world.s3, sha, writes[i])
        && (writes[i].media.mediaType == "image" ==> i == 1)
  {
    var writes := PlanJob(job, world, sha);
    var m := FetchAndNormalizeMetadata(job.metadataUri.value, world.metadata).value;
    var img := MediaWrites(job, "image", m.image, world.image, world.s3, world.imagePutOk, sha);
    var anim := MediaWrites(job, "animation", m.animationUrl, world.animation, world.s3, world.animationPutOk, sha);
    PlanShape(job, world, sha);
    assert writes == [MetadataInsert(job, m)] + img + anim;
    if img != [] {
      MediaWriteIsRowFor(job, m, "image", m.image, world.image, world.s3, world.imagePutOk, sha);
    }
    if anim != [] {
      MediaWriteIsRowFor(job, m, "animation", m.animationUrl, world.animation, world.s3, world.animationPutOk, sha);
    }
    forall i | 1 <= i < |writes|
      ensures MediaRowFor(job, m, world.s3, sha, writes[i]) && (writes[i].media.mediaType == "image" ==> i == 1)
    {
      WriteAt(writes, MetadataInsert(job, m), img, anim, i);
    }
  }

  /** Position `i` past the head of `[head] + img + anim`, with at most one write in each part. */
  lemma WriteAt(writes: seq<DbWrite>, head: DbWrite, img: seq<DbWrite>, anim: seq<DbWrite>, i: nat)
    requires writes == [head] + img + anim && |img| <= 1 && |anim| <= 1 && 1 <= i < |writes|
    ensures i == 1 && img != [] ==> writes[i] == img[0]
    ensures !(i == 1 && img != []) ==> anim != [] && writes[i] == anim[0] && i == |writes| - 1
  {
  }

  /** With S3 unconfigured no media row is ever written, whatever the downloads do. */
  lemma NoMediaWithoutS3(job: MintJob, world: JobWorld, sha: string -> string)
    requires !world.s3.hasClient || world.s3.bucket.None?
    ensures |PlanJob(job, world, sha)| <= 1
  {
    if PlanJob(job, world, sha) != [] {
      PlanShape(job, world, sha);
    }
  }
}
