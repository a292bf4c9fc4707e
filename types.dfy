/** Values shared by the Gotify client, the notification builder and the dispatcher:
    messages as the server sends them, the error taxonomy, and the abstract outside
    world (server answers, cache files, and the ordered log of visible actions). */
module Types {

  /** Rust's `i64`: message ids, application ids and priorities. */
  type Int64 = x: int | -0x8000_0000_0000_0000 <= x <= 0x7FFF_FFFF_FFFF_FFFF

  datatype Option<+T> = None | Some(value: T)

  datatype Result<+T> = Ok(value: T) | Err(error: Error)

  /** A filesystem path, as text (the model does not distinguish non-UTF-8 paths). */
  type Path = string

  /** A URL, split into its scheme and everything after `scheme:`. */
  datatype Url = Url(scheme: string, rest: string)

  /** `gotify::Message`; `appImgFilepath` is never transmitted and is filled in by the image cache. */
  datatype Message = Message(
    id: Int64,
    appId: Int64,
    text: string,
    title: string,
    priority: Int64,
    date: string,
    appImgFilepath: Option<Path>)

  /** The fields of `gotify::AppInfo` the client reads. */
  datatype AppInfo = AppInfo(id: Int64, image: string)

  /** `config::GotifyConfig`. */
  datatype GotifyConfig = GotifyConfig(url: Url, token: string, autoDelete: bool)

  /** Desktop notification urgency levels. */
  datatype Urgency = Low | Normal | Critical

  /** What the notification builder sets before showing the notification. */
  datatype Notification = Notification(
    summary: string,
    body: string,
    urgency: Urgency,
    appName: string,
    desktopEntry: string,
    icon: string)

  /** A spawned process: program, arguments and the extra environment variables. */
  datatype Invocation = Invocation(program: string, args: seq<string>, env: seq<(string, string)>)

  /** Everything the daemon does that the outside world can observe, in order. */
  datatype Action =
    | FetchMessages(limit: nat)       // GET <http url>/message?limit=<limit>
    | FetchApplications                // GET <http url>/application
    | FetchImage(relUrl: string)       // GET <http url> joined with the image's relative URL
    | DeleteMessage(id: Int64)         // DELETE <http url>/message/<id>
    | ShowNotification(n: Notification)
    | RunCommand(inv: Invocation)

  /** How an HTTP exchange can fail: no response, a non-success status, or an unparseable body. */
  datatype Fault = Unreachable | ErrorStatus | Undecodable

  /** The already-decoded answer to one HTTP request. */
  datatype Reply<+T> = Answer(body: T) | Failure(fault: Fault)

  /** Why a live socket is considered dead (the two variants of `gotify::NeedsReconnect`). */
  datatype Disconnect = PollInterrupted | ResetWithoutClosingHandshake

  /** WebSocket frame kinds other than Text and Ping. */
  datatype FrameKind = Binary | Pong | Close | RawFrame

  datatype Error =
    | NeedsReconnect(cause: Disconnect)
    | NotConnected
    | PollFailed
    | ReadFailed
    | FlushFailed
    | UnexpectedMessageType(kind: FrameKind)
    | DecodeFailed
    | HttpFailed(request: Action, fault: Fault)
    | InvalidImageUrl
    | CacheDirFailed
    | UrlJoinFailed
    | ImageCreateFailed
    | ImageCopyFailed
    | XdgFailed
    | InvalidToken
    | HttpClientFailed
    | UnexpectedScheme(scheme: string)
    | NotifyFailed
    | SpawnFailed
    | SplitFailed(command: string)
    | EmptyCommand

  /** Outcome of `download_app_img` once an image URL is known. */
  datatype DownloadOutcome =
    | Downloaded     // request, file creation and copy all succeed
    | UrlRejected    // joining the relative URL fails: no request is sent
    | RequestFailed(fault: Fault)  // the GET fails or has an error status: no file is created
    | CreateFailed   // `File::create` fails: no file is created
    | CopyFailed     // `io::copy` fails after the file was created: a partial file remains

  /** The server and host as seen during one client operation. */
  datatype Env = Env(
    recent: Reply<seq<Message>>,    // GET /message?limit=200, newest first
    apps: Reply<seq<AppInfo>>,      // GET /application
    fileNames: map<string, string>, // `Path::file_name` of a relative image URL, where it has one
    cachePaths: map<string, Path>,  // `place_cache_file` of a file name, where it succeeds
    download: DownloadOutcome,
    deletion: Reply<()>)            // DELETE /message/<id>

  /** The observable outside world: files present in the cache directory and the action log. */
  datatype Io = Io(files: set<Path>, log: seq<Action>)

  function Logged(io: Io, a: Action): (io': Io)
    ensures io'.files == io.files && io'.log == io.log + [a]
  {
    io.(log := io.log + [a])
  }

  function Created(io: Io, p: Path): (io': Io)
    ensures io'.log == io.log && io'.files == io.files + {p}
  {
    io.(files := io.files + {p})
  }
}
