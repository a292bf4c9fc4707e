/** The Gotify client state machine (src/gotify.rs, `Client`): construction, connection,
    catch-up after a reconnect, the live read loop and message deletion. Network, JSON and
    filesystem are replaced by an `Env` of already-classified answers and an `Io` world. */
module Gotify {
  import opened Types
  import opened Wire
  import opened ImageCache

  /** A live WebSocket to the stream endpoint. */
  datatype WebSocket = WebSocket(endpoint: Url)

  /** The readiness poller with the socket registered under `token`. */
  datatype Poller = Poller(token: nat)

  /** What one call of `get_message` ends with. `Waiting` stands for the source's loop still
      blocked in `poll` when the scripted wake-ups run out. */
  datatype Delivery = Delivered(msg: Message) | Failed(error: Error) | Waiting

  /** `url` with the path segment `stream` pushed. */
  function StreamUrl(url: Url): Url {
    url.(rest := url.rest + "/stream")
  }

  /** `url` with its WebSocket scheme rewritten for the HTTP API. */
  function HttpUrl(url: Url): (r: Result<Url>)
    ensures r.Ok? <==> url.scheme == "ws" || url.scheme == "wss"
    ensures r.Ok? ==> r.value.rest == url.rest && r.value.scheme == HttpScheme(url.scheme).value
    ensures r.Err? ==> r.error == UnexpectedScheme(url.scheme)
  {
    match HttpScheme(url.scheme)
    case Ok(s) => Ok(url.(scheme := s))
    case Err(e) => Err(e)
  }

  /** Every catch-up message is above the old mark, and the batch keeps the ids, order and
      content of the filtered server page (only image paths are filled in). */
  lemma CatchUpAboveMark(all: seq<Message>, last: Int64, cache: Cache, env: Env, io: Io)
    requires ResolveAll(Unseen(all, last), cache, env, io).msgs.Ok?
    ensures var out := ResolveAll(Unseen(all, last), cache, env, io).msgs.value;
      Ids(out) == Ids(Unseen(all, last)) && forall i | 0 <= i < |out| :: out[i].id > last
  {
    var u := Unseen(all, last);
    var out := ResolveAll(u, cache, env, io).msgs.value;
    forall i | 0 <= i < |out| ensures out[i].id == u[i].id && out[i].id > last {
      assert u[i] in u;
      UnseenMembers(all, last, u[i]);
    }
  }

  /** After a non-empty catch-up of a newest-first page, the new mark is the page's newest id,
      strictly above the old mark. */
  lemma CatchUpMarkIsNewest(all: seq<Message>, last: Int64, cache: Cache, env: Env, io: Io)
    requires NewestFirst(all)
    requires var b := ResolveAll(Unseen(all, last), cache, env, io); b.msgs.Ok? && b.msgs.value != []
    ensures var out := ResolveAll(Unseen(all, last), cache, env, io).msgs.value;
      out[|out| - 1].id == all[0].id && all[0].id > last && OldestFirst(out)
  {
    var u := Unseen(all, last);
    var out := ResolveAll(u, cache, env, io).msgs.value;
    assert |out| == |u|;
    CatchUpEndsAtNewest(all, last);
    UnseenOldestFirst(all, last);
    forall i, j | 0 <= i < j < |out| ensures out[i].id < out[j].id {
      assert out[i].id == u[i].id && out[j].id == u[j].id;
    }
    assert out[|out| - 1].id == u[|u| - 1].id;
  }

  /** The first failure among the checks of `Client::new`, in their order: the cache
      directory, the token as a header value, the HTTP client, the scheme. */
  function SetupError(config: GotifyConfig, xdgOk: bool, httpClientOk: bool): (e: Option<Error>)
    ensures e.Some? ==> !e.value.NeedsReconnect?
    ensures e.None? <==> xdgOk && ValidHeaderValue(config.token) && httpClientOk && HttpUrl(config.url).Ok?
  {
    if !xdgOk then Some(XdgFailed)
    else if !ValidHeaderValue(config.token) then Some(InvalidToken)
    else if !httpClientOk then Some(HttpClientFailed)
    else match HttpUrl(config.url)
      case Err(e) => Some(e)
      case Ok(_) => None
  }

  /** The behaviour of `get_missed_messages` for the mark `mark`: the catch-up batch, the
      cache and the world afterwards. */
  function CatchUp(mark: Option<Int64>, cache: Cache, env: Env, io: Io): (b: Batch)
    ensures mark.None? ==> b == Batch(Ok([]), cache, io)
    ensures b.msgs.Err? ==> !b.msgs.error.NeedsReconnect?
    ensures io.log <= b.io.log
  {
    match mark
    case None => Batch(Ok([]), cache, io)
    case Some(last) =>
      var sent := Logged(io, FetchMessages(CatchUpLimit));
      match env.recent
      case Failure(f) => Batch(Err(HttpFailed(FetchMessages(CatchUpLimit), f)), cache, sent)
      case Answer(all) =>
        ResolveAll(Unseen(all, last), cache, env, sent)
  }

  /** Every message of a successful catch-up is above the mark it started from. */
  lemma CatchUpIdsAboveMark(mark: Option<Int64>, cache: Cache, env: Env, io: Io)
    ensures var b := CatchUp(mark, cache, env, io);
      mark.Some? && b.msgs.Ok? ==> forall i | 0 <= i < |b.msgs.value| :: b.msgs.value[i].id > mark.value
  {
    if mark.Some? && env.recent.Answer? {
      var sent := Logged(io, FetchMessages(CatchUpLimit));
      if ResolveAll(Unseen(env.recent.body, mark.value), cache, env, sent).msgs.Ok? {
        CatchUpAboveMark(env.recent.body, mark.value, cache, env, sent);
      }
    }
  }

  /** What one `get_message` call yields, the cache and the world afterwards. */
  datatype Reception = Reception(delivery: Delivery, cache: Cache, io: Io)

  /** The behaviour of `get_message`: the first wake-up that decides, classified, and a decoded
      message given its image. */
  function Receive(connected: bool, wakes: seq<Wake>, cache: Cache, env: Env, io: Io): (r: Reception)
    ensures !connected ==> r == Reception(Failed(NotConnected), cache, io)
    ensures r.delivery == Waiting <==> connected && FirstDecisive(wakes) == |wakes|
    ensures (r.delivery.Failed? && r.delivery.error.NeedsReconnect?) <==>
              connected && FirstDecisive(wakes) < |wakes| &&
              (wakes[FirstDecisive(wakes)] == Interrupted || wakes[FirstDecisive(wakes)] == Readable(Reset))
    ensures r.delivery.Delivered? && r.delivery.msg.appImgFilepath.Some? ==>
              r.delivery.msg.appImgFilepath.value in r.io.files
    ensures io.log <= r.io.log
  {
    if !connected then Reception(Failed(NotConnected), cache, io)
    else
      var k := FirstDecisive(wakes);
      if k == |wakes| then Reception(Waiting, cache, io)
      else
        var step := Classify(wakes[k]);
        if step.Fail? then Reception(Failed(step.error), cache, io)
        else
          var s := Resolve(step.msg.appId, cache, env, io);
          match s.path
          case Ok(p) => Reception(Delivered(step.msg.(appImgFilepath := p)), s.cache, s.io)
          case Err(e) => Reception(Failed(e), s.cache, s.io)
  }

  class Client {
    /** The configuration the client was built from. */
    const config: GotifyConfig
    /** The HTTP(S) base URL of the Gotify API. */
    const httpUrl: Url
    /** The WebSocket, if connected. */
    var ws: Option<WebSocket>
    /** The socket poller, if connected. */
    var poller: Option<Poller>
    /** The application image cache. */
    var appImgs: Cache
    /** The id of the last message received. */
    var lastMsgId: Option<Int64>

    constructor Init(config: GotifyConfig, httpUrl: Url)
      ensures this.config == config && this.httpUrl == httpUrl
      ensures ws == None && poller == None && appImgs == map[] && lastMsgId == None
    {
      this.config := config;
      this.httpUrl := httpUrl;
      ws := None;
      poller := None;
      appImgs := map[];
      lastMsgId := None;
    }

    /** `Client::new`: the cache directory (`xdgOk`), the token as a header value, the HTTP
        client (`httpClientOk`) and the scheme are checked in that order. */
    static method New(config: GotifyConfig, xdgOk: bool, httpClientOk: bool) returns (r: Result<Client>)
      ensures !xdgOk ==> r == Err(XdgFailed)
      ensures xdgOk && !ValidHeaderValue(config.token) ==> r == Err(InvalidToken)
      ensures xdgOk && ValidHeaderValue(config.token) && !httpClientOk ==> r == Err(HttpClientFailed)
      ensures xdgOk && ValidHeaderValue(config.token) && httpClientOk && HttpUrl(config.url).Err? ==>
                r == Err(HttpUrl(config.url).error)
      ensures r.Ok? <==> xdgOk && ValidHeaderValue(config.token) && httpClientOk && HttpUrl(config.url).Ok?
      ensures r.Err? ==> !r.error.NeedsReconnect?
      ensures r.Err? <==> SetupError(config, xdgOk, httpClientOk).Some?
      ensures r.Err? ==> r.error == SetupError(config, xdgOk, httpClientOk).value
      ensures r.Ok? ==> fresh(r.value) && r.value.config == config && r.value.httpUrl == HttpUrl(config.url).value
      ensures r.Ok? ==> r.value.ws == None && r.value.poller == None
      ensures r.Ok? ==> r.value.appImgs == map[] && r.value.lastMsgId == None
    {
      if !xdgOk {
        return Err(XdgFailed);
      }
      if !ValidHeaderValue(config.token) {
        return Err(InvalidToken);
      }
      if !httpClientOk {
        return Err(HttpClientFailed);
      }
      var scheme: string;
      if config.url.scheme == "wss" {
        scheme := "https";
      } else if config.url.scheme == "ws" {
        scheme := "http";
      } else {
        return Err(UnexpectedScheme(config.url.scheme));
      }
      var c := new Client.Init(config, config.url.(scheme := scheme));
      return Ok(c);
    }

    /** `try_connect`: `ok` is whether the handshake, the status check and the poller
        registration all succeed; only then is the session stored. */
    method TryConnect(ok: bool)
      modifies this`ws, this`poller
      ensures ok ==> ws == Some(WebSocket(StreamUrl(config.url))) && poller == Some(Poller(0))
      ensures !ok ==> ws == old(ws) && poller == old(poller)
    {
      if ok {
        ws := Some(WebSocket(StreamUrl(config.url)));
        poller := Some(Poller(0));
      }
    }

    /** `connect`: retry `try_connect` until an attempt succeeds (the source waits 250 ms,
        growing by 1.5 up to 60 s, between attempts and never gives up). `tries` counts the
        attempts made; `connected` is false when the scripted attempts ran out first. */
    method Connect(attempts: seq<bool>) returns (connected: bool, tries: nat)
      modifies this`ws, this`poller
      ensures connected <==> true in attempts
      ensures tries <= |attempts|
      ensures forall j | 0 <= j < tries - 1 :: !attempts[j]
      ensures connected ==> 0 < tries && attempts[tries - 1]
      ensures !connected ==> tries == |attempts| && ws == old(ws) && poller == old(poller)
      ensures connected ==> ws == Some(WebSocket(StreamUrl(config.url))) && poller == Some(Poller(0))
    {
      tries := 0;
      connected := false;
      while tries < |attempts| && !connected
        invariant tries <= |attempts|
        invariant !connected ==> forall j | 0 <= j < tries :: !attempts[j]
        invariant !connected ==> ws == old(ws) && poller == old(poller)
        invariant connected ==> 0 < tries && attempts[tries - 1] && forall j | 0 <= j < tries - 1 :: !attempts[j]
        invariant connected ==> ws == Some(WebSocket(StreamUrl(config.url))) && poller == Some(Poller(0))
      {
        TryConnect(attempts[tries]);
        connected := attempts[tries];
        tries := tries + 1;
      }
    }

    /** `set_message_app_img`: the message with its image path, or the error; the cache is
        updated as `Resolve` says. */
    method SetMessageAppImg(msg: Message, env: Env, io: Io) returns (r: Result<Message>, io': Io)
      modifies this`appImgs
      ensures var s := Resolve(msg.appId, old(appImgs), env, io);
        appImgs == s.cache && io' == s.io &&
        r == (if s.path.Ok? then Ok(msg.(appImgFilepath := s.path.value)) else Err(s.path.error))
    {
      if msg.appId in appImgs {
        var entry := appImgs[msg.appId];
        if entry.None? {
          return Ok(msg.(appImgFilepath := None)), io;
        }
        var cached := entry.value;
        if cached in io.files {
          return Ok(msg.(appImgFilepath := Some(cached))), io;
        }
        var d := DownloadAppImg(msg.appId, None, cached, env, io);
        if d.downloaded.Err? {
          return Err(d.downloaded.error), d.io;
        }
        return Ok(msg.(appImgFilepath := if d.downloaded.value then Some(cached) else None)), d.io;
      }
      var look := AppImgUrl(msg.appId, env, io);
      if look.url.Err? {
        return Err(look.url.error), look.io;
      }
      var newEntry: Option<Path> := None;
      io' := look.io;
      if look.url.value.Some? {
        var rel := look.url.value.value;
        if rel !in env.fileNames {
          return Err(InvalidImageUrl), io';
        }
        var fileName := env.fileNames[rel];
        if fileName !in env.cachePaths {
          return Err(CacheDirFailed), io';
        }
        var imgFilepath := env.cachePaths[fileName];
        if imgFilepath in io'.files {
          newEntry := Some(imgFilepath);
        } else {
          var d := DownloadAppImg(msg.appId, Some(rel), imgFilepath, env, io');
          io' := d.io;
          if d.downloaded.Err? {
            return Err(d.downloaded.error), io';
          }
          newEntry := if d.downloaded.value then Some(imgFilepath) else None;
        }
      }
      appImgs := appImgs[msg.appId := newEntry];
      r := Ok(msg.(appImgFilepath := newEntry));
    }

    /** `set_message_app_img` on each message of a batch in turn; the first error is returned. */
    method ResolveImages(ms: seq<Message>, env: Env, io: Io) returns (r: Result<seq<Message>>, io': Io)
      modifies this`appImgs
      ensures ResolveAll(ms, old(appImgs), env, io) == Batch(r, appImgs, io')
    {
      ghost var cache0 := appImgs;
      io' := io;
      var out: seq<Message> := [];
      for i := 0 to |ms|
        invariant ResolveAll(ms[..i], cache0, env, io) == Batch(Ok(out), appImgs, io')
      {
        assert ms[..i + 1][..i] == ms[..i];
        var m, io2 := SetMessageAppImg(ms[i], env, io');
        if m.Err? {
          ResolveAllStopsAtError(ms, i + 1, cache0, env, io);
          return Err(m.error), io2;
        }
        out := out + [m.value];
        io' := io2;
      }
      assert ms[..|ms|] == ms;
      r := Ok(out);
    }

    /** `get_missed_messages`: with no mark, nothing is fetched; otherwise one page of recent
        messages is fetched, the unseen ones are kept oldest first and get their images, and
        the mark moves to the last of them. On any error the mark is untouched. */
    method GetMissedMessages(env: Env, io: Io) returns (r: Result<seq<Message>>, io': Io)
      modifies this`appImgs, this`lastMsgId
      ensures old(lastMsgId).None? ==> r == Ok([]) && io' == io && appImgs == old(appImgs) && lastMsgId == None
      ensures old(lastMsgId).Some? && env.recent.Failure? ==>
                r == Err(HttpFailed(FetchMessages(CatchUpLimit), env.recent.fault)) &&
                io' == Logged(io, FetchMessages(CatchUpLimit)) && appImgs == old(appImgs)
      ensures old(lastMsgId).Some? && env.recent.Answer? ==>
                var b := ResolveAll(Unseen(env.recent.body, old(lastMsgId).value), old(appImgs), env,
                                    Logged(io, FetchMessages(CatchUpLimit)));
                r == b.msgs && appImgs == b.cache && io' == b.io
      ensures r.Ok? && r.value != [] ==> lastMsgId == Some(r.value[|r.value| - 1].id)
      ensures r.Err? || r.value == [] ==> lastMsgId == old(lastMsgId)
      ensures r.Err? ==> !r.error.NeedsReconnect?
      ensures CatchUp(old(lastMsgId), old(appImgs), env, io) == Batch(r, appImgs, io')
      ensures r.Ok? && old(lastMsgId).Some? ==> forall i | 0 <= i < |r.value| :: r.value[i].id > old(lastMsgId).value
    {
      var missed: seq<Message> := [];
      io' := io;
      if lastMsgId.Some? {
        io' := Logged(io', FetchMessages(CatchUpLimit));
        match env.recent {
          case Failure(f) =>
            return Err(HttpFailed(FetchMessages(CatchUpLimit), f)), io';
          case Answer(all) =>
            missed := Unseen(all, lastMsgId.value);
        }
      }
      ghost var cache0, io0 := appImgs, io';
      var resolved;
      resolved, io' := ResolveImages(missed, env, io');
      if resolved.Err? {
        return resolved, io';
      }
      var out := resolved.value;
      if old(lastMsgId).Some? && env.recent.Answer? {
        CatchUpAboveMark(env.recent.body, old(lastMsgId).value, cache0, env, io0);
      }
      if |out| > 0 {
        lastMsgId := Some(out[|out| - 1].id);
      }
      r := Ok(out);
    }

    /** `get_message`: wait for and read frames until one decides the outcome. Empty polls and
        answered Pings go round again; the first other wake-up decides. Only a delivered
        message moves the mark, to its own id. */
    method GetMessage(wakes: seq<Wake>, env: Env, io: Io) returns (d: Delivery, used: nat, io': Io)
      modifies this`appImgs, this`lastMsgId
      ensures used <= |wakes|
      ensures old(ws).None? || old(poller).None? ==>
                d == Failed(NotConnected) && used == 0 && io' == io && appImgs == old(appImgs)
      ensures old(ws).Some? && old(poller).Some? ==>
                var k := FirstDecisive(wakes);
                && used == (if k < |wakes| then k + 1 else |wakes|)
                && (k == |wakes| ==> d == Waiting && io' == io && appImgs == old(appImgs))
                && (k < |wakes| && Classify(wakes[k]).Fail? ==>
                      d == Failed(Classify(wakes[k]).error) && io' == io && appImgs == old(appImgs))
                && (k < |wakes| && Classify(wakes[k]).Decoded? ==>
                      var m := Classify(wakes[k]).msg;
                      var s := Resolve(m.appId, old(appImgs), env, io);
                      appImgs == s.cache && io' == s.io &&
                      d == (if s.path.Ok? then Delivered(m.(appImgFilepath := s.path.value)) else Failed(s.path.error)))
      ensures Receive(old(ws).Some? && old(poller).Some?, wakes, old(appImgs), env, io) == Reception(d, appImgs, io')
      ensures d.Delivered? ==> lastMsgId == Some(d.msg.id) && 0 < used
      ensures !d.Delivered? ==> lastMsgId == old(lastMsgId)
    {
      if ws.None? || poller.None? {
        return Failed(NotConnected), 0, io;
      }
      var i := 0;
      while i < |wakes|
        invariant i <= |wakes|
        invariant forall j | 0 <= j < i :: Classify(wakes[j]).Skip?
        invariant appImgs == old(appImgs) && lastMsgId == old(lastMsgId)
      {
        var w := wakes[i];
        i := i + 1;
        match w {
          case Interrupted =>
            return Failed(NeedsReconnect(PollInterrupted)), i, io;
          case PollError =>
            return Failed(PollFailed), i, io;
          case NoEvents =>
            continue;
          case Readable(read) =>
            match read {
              case Reset =>
                return Failed(NeedsReconnect(ResetWithoutClosingHandshake)), i, io;
              case ReadError =>
                return Failed(ReadFailed), i, io;
              case Received(frame) =>
                match frame {
                  case Ping(flushed) =>
                    if !flushed {
                      return Failed(FlushFailed), i, io;
                    }
                    continue;
                  case Other(kind) =>
                    return Failed(UnexpectedMessageType(kind)), i, io;
                  case Text(decoded) =>
                    if decoded.None? {
                      return Failed(DecodeFailed), i, io;
                    }
                    var msg, io1 := SetMessageAppImg(decoded.value, env, io);
                    if msg.Err? {
                      return Failed(msg.error), i, io1;
                    }
                    lastMsgId := Some(msg.value.id);
                    return Delivered(msg.value), i, io1;
                }
            }
        }
      }
      return Waiting, |wakes|, io;
    }

    /** `delete_message`: one DELETE request; its failure is returned. */
    method DeleteMessage(msgId: Int64, env: Env, io: Io) returns (r: Result<()>, io': Io)
      ensures io' == Logged(io, Action.DeleteMessage(msgId))
      ensures r.Ok? <==> env.deletion.Answer?
      ensures r.Err? ==> r.error == HttpFailed(Action.DeleteMessage(msgId), env.deletion.fault)
    {
      io' := Logged(io, Action.DeleteMessage(msgId));
      match env.deletion {
        case Answer(_) => r := Ok(());
        case Failure(f) => r := Err(HttpFailed(Action.DeleteMessage(msgId), f));
      }
    }
  }
}
