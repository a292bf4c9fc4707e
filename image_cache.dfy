/** The per-application image cache of the Gotify client (src/gotify.rs,
    `set_message_app_img`, `app_img_url`, `download_app_img`), as functions of the
    cache, the server's answers and the outside world. */
module ImageCache {
  import opened Types

  /** `app_imgs`: an absent key is unresolved, `None` means the app has no image,
      `Some(p)` the local file the image was saved to. */
  type Cache = map<Int64, Option<Path>>

  /** Index of the first application with id `appId`, `|apps|` when there is none. */
  function FirstApp(apps: seq<AppInfo>, appId: Int64): (k: nat)
    ensures k <= |apps|
    ensures forall j | 0 <= j < k :: apps[j].id != appId
    ensures k < |apps| ==> apps[k].id == appId
  {
    if apps == [] then 0
    else if apps[0].id == appId then 0
    else 1 + FirstApp(apps[1..], appId)
  }

  /** `apps.find(|a| a.id == app_id).map(|a| a.image).filter(|i| !i.is_empty())`. */
  function ImageUrlOf(apps: seq<AppInfo>, appId: Int64): (r: Option<string>)
    ensures r.Some? ==> r.value != "" && exists a | a in apps :: a.id == appId && a.image == r.value
    ensures r.Some? ==> FirstApp(apps, appId) < |apps| && r.value == apps[FirstApp(apps, appId)].image
    ensures (forall a | a in apps :: a.id != appId) ==> r.None?
    ensures r.None? ==> (forall a | a in apps :: a.id != appId) || apps[FirstApp(apps, appId)].image == ""
  {
    var k := FirstApp(apps, appId);
    if k == |apps| then None
    else if apps[k].image == "" then None
    else Some(apps[k].image)
  }

  /** The image URL lookup and the world after it. */
  datatype Lookup = Lookup(url: Result<Option<string>>, io: Io)

  /** `app_img_url`: one GET of the application list. */
  function AppImgUrl(appId: Int64, env: Env, io: Io): (r: Lookup)
    ensures r.io == Logged(io, FetchApplications)
    ensures r.url.Err? <==> env.apps.Failure?
    ensures r.url.Err? ==> r.url.error == HttpFailed(FetchApplications, env.apps.fault)
    ensures r.url.Ok? ==> r.url.value == ImageUrlOf(env.apps.body, appId)
  {
    match env.apps
    case Failure(f) => Lookup(Err(HttpFailed(FetchApplications, f)), Logged(io, FetchApplications))
    case Answer(apps) => Lookup(Ok(ImageUrlOf(apps, appId)), Logged(io, FetchApplications))
  }

  /** The download's result (whether an image was written) and the world after it. */
  datatype Fetch = Fetch(downloaded: Result<bool>, io: Io)

  /** True when `relUrl` is known, or looking it up (when it is not) yields an image URL. */
  predicate ImageUrlKnown(appId: Int64, relUrl: Option<string>, env: Env, io: Io) {
    relUrl.Some? || (var u := AppImgUrl(appId, env, io).url; u.Ok? && u.value.Some?)
  }

  /** `download_app_img`: look the URL up unless it is given, then fetch it into `path`. */
  function DownloadAppImg(appId: Int64, relUrl: Option<string>, path: Path, env: Env, io: Io): (r: Fetch)
    ensures r.downloaded == Ok(true) ==> ImageUrlKnown(appId, relUrl, env, io)
    ensures r.downloaded != Ok(false) || !ImageUrlKnown(appId, relUrl, env, io)
    ensures r.downloaded == Ok(true) ==> path in r.io.files
    ensures io.files <= r.io.files <= io.files + {path}
    ensures r.io.files != io.files ==> env.download.Downloaded? || env.download.CopyFailed?
    ensures io.log <= r.io.log
    ensures relUrl.Some? && env.download.UrlRejected? ==> r == Fetch(Err(UrlJoinFailed), io)
  {
    var look := if relUrl.Some? then Lookup(Ok(relUrl), io) else AppImgUrl(appId, env, io);
    match look.url
    case Err(e) => Fetch(Err(e), look.io)
    case Ok(None) => Fetch(Ok(false), look.io)
    case Ok(Some(rel)) =>
      var sent := Logged(look.io, FetchImage(rel));
      match env.download
      case UrlRejected => Fetch(Err(UrlJoinFailed), look.io)
      case RequestFailed(f) => Fetch(Err(HttpFailed(FetchImage(rel), f)), sent)
      case CreateFailed => Fetch(Err(ImageCreateFailed), sent)
      case CopyFailed => Fetch(Err(ImageCopyFailed), Created(sent, path))
      case Downloaded => Fetch(Ok(true), Created(sent, path))
  }

  /** The cache file for a relative image URL: `place_cache_file(file_name(url))`, when both succeed. */
  function CachePathOf(env: Env, rel: string): Option<Path> {
    if rel in env.fileNames && env.fileNames[rel] in env.cachePaths then Some(env.cachePaths[env.fileNames[rel]])
    else None
  }

  /** The image path resolved for a message, the cache and the world afterwards. */
  datatype Resolution = Resolution(path: Result<Option<Path>>, cache: Cache, io: Io)

  /** The behaviour of `set_message_app_img` for a message of application `appId`. */
  function Resolve(appId: Int64, cache: Cache, env: Env, io: Io): (r: Resolution)
    // A resolved path always names a file that exists.
    ensures r.path.Ok? && r.path.value.Some? ==> r.path.value.value in r.io.files
    // Files are only ever added, actions only appended.
    ensures io.files <= r.io.files
    ensures io.log <= r.io.log
    // The cache changes only at `appId`, and only by an insert after a successful miss.
    ensures appId in cache ==> r.cache == cache
    ensures appId !in cache && r.path.Ok? ==> r.cache == cache[appId := r.path.value]
    ensures r.path.Err? ==> r.cache == cache
    // Resolving an image never reports a lost connection.
    ensures r.path.Err? ==> !r.path.error.NeedsReconnect?
    // Cache hit, no image: nothing is asked of the server.
    ensures appId in cache && cache[appId].None? ==> r == Resolution(Ok(None), cache, io)
    // Cache hit, file present: nothing is asked of the server.
    ensures appId in cache && cache[appId].Some? && cache[appId].value in io.files ==>
              r == Resolution(Ok(cache[appId]), cache, io)
    // Cache hit, file gone: the URL is looked up again and the cached path is returned
    // exactly when a download happened.
    ensures appId in cache && cache[appId].Some? && cache[appId].value !in io.files ==>
              |r.io.log| > |io.log| && r.io.log[|io.log|] == FetchApplications &&
              (r.path == Ok(cache[appId]) <==> DownloadAppImg(appId, None, cache[appId].value, env, io).downloaded == Ok(true))
    ensures appId in cache && cache[appId].Some? && r.path.Ok? ==> r.path.value == None || r.path.value == cache[appId]
    // Cache miss, the app is unknown or its image string is empty: cached as having no image.
    ensures appId !in cache && env.apps.Answer? && ImageUrlOf(env.apps.body, appId).None? ==>
              r == Resolution(Ok(None), cache[appId := None], Logged(io, FetchApplications))
    // Cache miss with an image URL: the resolved path is its cache file, and no download
    // happens when that file already exists.
    ensures appId !in cache && env.apps.Answer? && ImageUrlOf(env.apps.body, appId).Some? && r.path.Ok? ==>
              r.path.value.Some? && CachePathOf(env, ImageUrlOf(env.apps.body, appId).value) == r.path.value
    ensures appId !in cache && env.apps.Answer? && ImageUrlOf(env.apps.body, appId).Some? &&
            CachePathOf(env, ImageUrlOf(env.apps.body, appId).value).Some? &&
            CachePathOf(env, ImageUrlOf(env.apps.body, appId).value).value in io.files ==>
              r == Resolution(Ok(CachePathOf(env, ImageUrlOf(env.apps.body, appId).value)),
                              cache[appId := CachePathOf(env, ImageUrlOf(env.apps.body, appId).value)],
                              Logged(io, FetchApplications))
  {
    if appId in cache then
      match cache[appId]
      case None => Resolution(Ok(None), cache, io)
      case Some(p) =>
        if p in io.files then Resolution(Ok(Some(p)), cache, io)
        else
          var d := DownloadAppImg(appId, None, p, env, io);
          match d.downloaded
          case Err(e) => Resolution(Err(e), cache, d.io)
          case Ok(done) => Resolution(Ok(if done then Some(p) else None), cache, d.io)
    else
      var look := AppImgUrl(appId, env, io);
      match look.url
      case Err(e) => Resolution(Err(e), cache, look.io)
      case Ok(None) => Resolution(Ok(None), cache[appId := None], look.io)
      case Ok(Some(rel)) =>
        if rel !in env.fileNames then Resolution(Err(InvalidImageUrl), cache, look.io)
        else if env.fileNames[rel] !in env.cachePaths then Resolution(Err(CacheDirFailed), cache, look.io)
        else
          var p := env.cachePaths[env.fileNames[rel]];
          if p in look.io.files then Resolution(Ok(Some(p)), cache[appId := Some(p)], look.io)
          else
            var d := DownloadAppImg(appId, Some(rel), p, env, look.io);
            match d.downloaded
            case Err(e) => Resolution(Err(e), cache, d.io)
            case Ok(done) =>
              var entry := if done then Some(p) else None;
              Resolution(Ok(entry), cache[appId := entry], d.io)
  }

  /** The messages of a batch with their image paths filled in, the cache and the world afterwards. */
  datatype Batch = Batch(msgs: Result<seq<Message>>, cache: Cache, io: Io)

  /** `set_message_app_img` applied to each message in turn, stopping at the first error. */
  function ResolveAll(ms: seq<Message>, cache: Cache, env: Env, io: Io): (b: Batch)
    ensures b.msgs.Ok? ==> |b.msgs.value| == |ms|
    ensures b.msgs.Ok? ==> forall i | 0 <= i < |ms| ::
              b.msgs.value[i] == ms[i].(appImgFilepath := b.msgs.value[i].appImgFilepath)
    ensures b.msgs.Ok? ==> forall i | 0 <= i < |ms| ::
              b.msgs.value[i].appImgFilepath.Some? ==> b.msgs.value[i].appImgFilepath.value in b.io.files
    ensures cache.Keys <= b.cache.Keys
    ensures io.files <= b.io.files
    ensures b.msgs.Err? ==> !b.msgs.error.NeedsReconnect?
    ensures io.log <= b.io.log
    decreases |ms|
  {
    if ms == [] then Batch(Ok([]), cache, io)
    else
      var prev := ResolveAll(ms[..|ms| - 1], cache, env, io);
      if prev.msgs.Err? then prev
      else
        var m := ms[|ms| - 1];
        var s := Resolve(m.appId, prev.cache, env, prev.io);
        match s.path
        case Err(e) => Batch(Err(e), s.cache, s.io)
        case Ok(p) => Batch(Ok(prev.msgs.value + [m.(appImgFilepath := p)]), s.cache, s.io)
  }

  /** Once a prefix of the batch fails, the whole batch fails the same way. */
  lemma {:induction false} ResolveAllStopsAtError(ms: seq<Message>, i: nat, cache: Cache, env: Env, io: Io)
    requires i <= |ms|
    requires ResolveAll(ms[..i], cache, env, io).msgs.Err?
    ensures ResolveAll(ms, cache, env, io) == ResolveAll(ms[..i], cache, env, io)
    decreases |ms| - i
  {
    if i < |ms| {
      assert ms[..i + 1][..i] == ms[..i];
      assert ResolveAll(ms[..i + 1], cache, env, io) == ResolveAll(ms[..i], cache, env, io);
      ResolveAllStopsAtError(ms, i + 1, cache, env, io);
    } else {
      assert ms[..i] == ms;
    }
  }

  // ---------------------------------------------------------------------------
  // Properties relating several resolutions

  /** Resolving the same application twice asks the server at most once: after a successful
      resolution the second one is a pure cache hit. The one exception is a cached path whose
      file had vanished and whose re-download found no image: the stale entry is kept. */
  lemma ResolveTwiceAsksOnce(appId: Int64, cache: Cache, env: Env, io: Io)
    requires Resolve(appId, cache, env, io).path.Ok?
    requires !(appId in cache && cache[appId].Some? && cache[appId].value !in io.files &&
               Resolve(appId, cache, env, io).path == Ok(None))
    ensures var r1 := Resolve(appId, cache, env, io);
      Resolve(appId, r1.cache, env, r1.io) == r1
  {
  }

  /** The exception: a stale entry whose app no longer has an image is looked up on every call. */
  lemma StaleEntryAsksAgain(appId: Int64, cache: Cache, env: Env, io: Io)
    requires appId in cache && cache[appId].Some? && cache[appId].value !in io.files
    requires Resolve(appId, cache, env, io).path == Ok(None)
    ensures var r1 := Resolve(appId, cache, env, io);
      var r2 := Resolve(appId, r1.cache, env, r1.io);
      r2.path == Ok(None) && r2.cache == cache && |r2.io.log| > |r1.io.log|
  {
  }

  /** A cached image file deleted behind the client's back is downloaded again, not an error,
      when the server still lists the image and the download works. */
  lemma DeletedFileIsRedownloaded(appId: Int64, cache: Cache, env: Env, io: Io)
    requires appId in cache && cache[appId].Some? && cache[appId].value !in io.files
    requires env.apps.Answer? && ImageUrlOf(env.apps.body, appId).Some?
    requires env.download == Downloaded
    ensures var r := Resolve(appId, cache, env, io);
      r.path == Ok(cache[appId]) && r.cache == cache && cache[appId].value in r.io.files
      && r.io.log == io.log + [FetchApplications, FetchImage(ImageUrlOf(env.apps.body, appId).value)]
  {
  }

  /** An application whose image string is empty is cached as having no image, and a later
      message of the same application costs no request at all. */
  lemma EmptyImageIsCachedAsNone(appId: Int64, cache: Cache, env: Env, io: Io)
    requires appId !in cache
    requires env.apps.Answer? && FirstApp(env.apps.body, appId) < |env.apps.body|
    requires env.apps.body[FirstApp(env.apps.body, appId)].image == ""
    ensures var r1 := Resolve(appId, cache, env, io);
      r1.path == Ok(None) && r1.cache == cache[appId := None] && r1.io == Logged(io, FetchApplications)
      && Resolve(appId, r1.cache, env, r1.io) == r1
  {
  }
}
