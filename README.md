# gotify-desktop, modelled in Dafny

gotify-desktop is a small daemon. It keeps a WebSocket open to a Gotify push server and
shows every message it receives as a desktop notification. It can also run a configured
command for each message and delete the message on the server afterwards. After a
reconnect it catches up on the messages it missed, and it caches each application's icon
in the user's cache directory.

This project models the daemon's core:

- the Gotify client (`src/gotify.rs`): construction, connection, catch-up, the live read
  loop, the application image cache and message deletion;
- the dispatcher (`src/main.rs`): command splitting, the command's environment,
  `handle_message`, and the loop that reconnects or terminates;
- the notification builder (`src/notif.rs`).

It then proves properties about that model.

Modules, one per concern:

- `Types` (`types.dfy`): messages, the error taxonomy, and the outside world. The world is
  an `Env` of server answers that are already decoded, plus an `Io` of cache files and an
  ordered log of every visible action (HTTP requests, notifications, spawned commands).
- `Notif` (`notif.dfy`): urgency, icon and texts of the notification for a message.
- `Wire` (`wire.dfy`): the pure rules of the client:
  - the scheme rewrite;
  - the catch-up filter (`filter(id > last).rev()` over a newest-first page) with its
    ordering and membership properties;
  - the classification of one wake-up of the socket poller.
- `ImageCache` (`image_cache.dfy`): `set_message_app_img`, `app_img_url` and
  `download_app_img`, as functions of the cache, the server and the files.
- `Gotify` (`gotify.dfy`): the `Client` class. It holds `ws`, `poller`, `appImgs` and
  `lastMsgId` as fields its methods update. Methods and the functions they are proved
  against:
  - `New` against `SetupError` and `HttpUrl`;
  - `SetMessageAppImg` against `ImageCache.Resolve`;
  - `ResolveImages` against `ImageCache.ResolveAll`;
  - `GetMissedMessages` against `CatchUp` (built on `Wire.Unseen` and `ResolveAll`);
  - `GetMessage` against `Receive` (built on `Wire.Classify`, `Wire.FirstDecisive` and
    `Resolve`).

  `TryConnect`, `Connect` and `DeleteMessage` state their effect on the fields and the
  log directly, with no function behind them.
- `Dispatch` (`dispatch.dfy`): `main` and `handle_message`. Methods and the functions they
  are proved against:
  - `RunOnMsgCommand` against `CommandInvocation`;
  - `HandleMessage` against `Handled`;
  - `HandleAll` against `HandledAll`;
  - `TakeTurn` (one pass of the live loop) against `Take`;
  - `LiveOnce` and `LiveLoop` against `Live`;
  - `Serve` against `Served`;
  - `ServeNewClient` against `Step`;
  - `ConnectOnce`, `Connecting` and `Run` against `Ran`.

The outside world becomes parameters. The server's answers are an `Env`, and the
desktop's (whether a notification can be shown, whether a process can be spawned) a
`Host`. The daemon's run is a sequence of `Session`s, one per client instance. Each
session has:
- its connection attempts;
- one `Env` and one `Host` for the catch-up and the handling of the missed messages;
- one `Round` per live `get_message`: its socket wake-ups, and its own `Env` and `Host`
  for reading that message and handling it.

When such a sequence runs out, the model reports the loop as still waiting (`Waiting`,
`Blocked`, `Running`); in the source that loop would still be blocked or retrying.

The live loop and the connect loop are defined over the pass they repeat: `Live` over
one pass `take` and `Ran` over one session `serve`. The daemon's own passes are
`TakeWith(policy, connected)` and `ServeWith(policy)`. `LiveShape`, `LiveEnds` and
`RanShape` state what holds for every pass that stops as `Stops` says.
`LiveFatalHandling` needs only passes that fail after a delivery on the handling alone.
`TakePasses` and `TakeFailsOnHandling` prove that the daemon's own pass is such a pass.
The loop methods take the pass as a ghost parameter. `TakesAs` and `ServesAs` tie it to
`Take` and `Served`, and `Serve` and `Run` hand in the daemon's own.

Two behaviours of the code worth knowing:

- A failure to show a notification is returned by `handle_message`, because of the `?` on
  `notif::show`, and so it ends the daemon. It is not only logged.
- A cache hit whose file has vanished looks the image URL up again
  (`download_app_img(.., None, ..)`). It never rewrites the cache entry: if the
  application no longer has an image, the stale path stays cached and the lookup repeats
  on every message of that application (`ImageCache.StaleEntryAsksAgain`).

`src/main.rs` calls `Client::connect(&cfg.gotify, &token, last_msg_id)`, and that
function is not part of the `src/gotify.rs` modelled here. That file has `Client::new`
plus `connect(&mut self)`. The model composes the call as `Client.New`, then stores the
shared last message id in the new client, then `Connect`. After each session it reads
the id back, so the id survives across client instances, as the shared `Rc<RefCell<..>>`
does in the source.

## Model

| member | source | states |
|---|---|---|
| Notif.UrgencyOf | src/notif.rs:11-19 | Low exactly for priorities 0..3, Critical exactly for 8..10, Normal for 4..7 and for every priority outside 0..10 |
| Notif.UrgencyMonotone | src/notif.rs:11-19 | within 0..10 a higher priority never gets a lower urgency |
| Notif.UnexpectedIsNormal | src/notif.rs:15-18 | a priority outside 0..10 is shown with Normal urgency |
| Notif.Icon | src/notif.rs:30-38 | the icon is the message's cached image path when it has one, otherwise the desktop entry name |
| Notif.Build | src/notif.rs:21-38 | summary is the title, body is the text, the urgency follows the priority, the app name and desktop entry are the fixed constants, the icon is `Icon` |
| Wire.HttpScheme | src/gotify.rs:122-126 | succeeds exactly for `ws` and `wss`, mapping them to `http` and `https`; any other scheme is an `UnexpectedScheme` error naming it |
| Wire.Newer | src/gotify.rs:226-229 | the filter never yields more messages than the page |
| Wire.NewerMembers | src/gotify.rs:229 | a message is kept by the filter exactly when it is on the page and its id is above the mark |
| Wire.ReverseMembers | src/gotify.rs:230 | reversing keeps exactly the same elements |
| Wire.UnseenMembers | src/gotify.rs:226-231 | the catch-up list holds exactly the page's messages whose id is above the last seen id |
| Wire.NewerOfNewestFirst | src/gotify.rs:226-231 | on a newest-first page the kept messages are a prefix of the page and every later message is at or below the mark |
| Wire.UnseenOldestFirst | src/gotify.rs:226-231 | a newest-first page is caught up in strictly increasing id order |
| Wire.CatchUpEndsAtNewest | src/gotify.rs:226-231 | a non-empty catch-up ends with the page's newest message, which is above the mark |
| Wire.CatchUpExample | src/gotify.rs:229-230 | mark 6 and page 7,6,5,4 yield exactly message 7 |
| Wire.CatchUpBoundary | src/gotify.rs:229-230 | mark n and page n+2,n+1,n,n-1 yield n+1 then n+2; the message with id n is not delivered again |
| Wire.Classify | src/gotify.rs:262-301 | empty polls and answered Pings go round again; an interrupted poll and a reset without closing handshake, and only those, need a reconnect; a decoded Text frame yields its message; other frame kinds are an unexpected-type error |
| Wire.FirstDecisive | src/gotify.rs:258-297 | the index of the first wake-up that ends the read loop: every earlier one goes round again and the one at that index does not |
| ImageCache.FirstApp | src/gotify.rs:392 | the index of the first application with the requested id; no earlier one has it |
| ImageCache.ImageUrlOf | src/gotify.rs:392-394 | an image URL is returned only if non-empty and listed for that application; none when the application is missing or its first entry has an empty image |
| ImageCache.AppImgUrl | src/gotify.rs:379-395 | exactly one application-list request; its failure is the error, otherwise the image URL of the first matching application |
| ImageCache.DownloadAppImg | src/gotify.rs:398-418 | true only when an image URL is known, and then the file exists; false only when none is known; only the target file can appear; a rejected URL join sends nothing |
| ImageCache.Resolve | src/gotify.rs:328-376 | a resolved path names an existing file; a cache hit never changes the cache; a miss inserts exactly the resolved entry; errors leave the cache alone and never ask for a reconnect; a hit with no image or an existing file does nothing; a vanished file re-queries the app list and yields the cached path exactly when re-downloaded; an existing cache file is not downloaded again |
| ImageCache.ResolveAll | src/gotify.rs:236-238 | per message: same length, everything but the image path unchanged, every path present on disk; cached keys and files only grow |
| ImageCache.ResolveAllStopsAtError | src/gotify.rs:236-238 | once a prefix of the batch fails, the whole batch fails with the same error and world |
| ImageCache.ResolveTwiceAsksOnce | src/gotify.rs:329-372 | resolving the same application again right after a successful resolution is a pure cache hit, except for the stale-entry case |
| ImageCache.StaleEntryAsksAgain | src/gotify.rs:331-344 | a cached path whose file vanished and whose app has no image any more stays cached and is looked up again on the next call |
| ImageCache.DeletedFileIsRedownloaded | src/gotify.rs:331-344 | a cached image file deleted behind the client's back is fetched again into the same path, with one app-list and one image request |
| ImageCache.EmptyImageIsCachedAsNone | src/gotify.rs:351-371 | an application whose image string is empty is cached as having no image, and a second message of it costs no request |
| Gotify.HttpUrl | src/gotify.rs:121-128 | the API URL is the configured URL with `ws`/`wss` turned into `http`/`https`; any other scheme is rejected |
| Gotify.CatchUpAboveMark | src/gotify.rs:226-238 | after images are filled in, the catch-up keeps the filtered ids in order, all above the old mark |
| Gotify.CatchUpMarkIsNewest | src/gotify.rs:226-242 | after a non-empty catch-up of a newest-first page the new mark is the page's newest id, above the old mark, and delivery is oldest first |
| Gotify.SetupError | src/gotify.rs:106-128 | creating a client fails exactly when the cache directory, the token header, the HTTP client or the scheme fails; the error is never a reconnect request |
| Gotify.CatchUp | src/gotify.rs:211-245 | no mark: an empty batch and nothing else changes; an error is never a reconnect request; the log only grows |
| Gotify.CatchUpIdsAboveMark | src/gotify.rs:226-238 | every message of a successful catch-up is above the mark it started from |
| Gotify.Receive | src/gotify.rs:248-309 | not connected: `NotConnected` and no effect; no deciding wake-up: waiting; a reconnect request exactly on an interrupted poll or a reset without closing handshake; a delivered image path names an existing file; the log only grows |
| Gotify.Client.Init | src/gotify.rs:130-139 | a new client is disconnected, with an empty image cache and no mark |
| Gotify.Client.New | src/gotify.rs:106-140 | cache directory, token header, HTTP client and scheme are checked in that order, and the first failure is the error; on success the client is fresh and disconnected, with the rewritten API URL |
| Gotify.Client.TryConnect | src/gotify.rs:168-208 | the socket and poller are stored only when the attempt succeeds |
| Gotify.Client.Connect | src/gotify.rs:143-165 | retries until the first successful attempt and then holds a live socket and poller; if no attempt succeeds, the state is unchanged |
| Gotify.Client.SetMessageAppImg | src/gotify.rs:328-376 | the message's image path, the cache and the world afterwards are those of `Resolve` |
| Gotify.Client.ResolveImages | src/gotify.rs:236-238 | the batch, cache and world afterwards are those of `ResolveAll` |
| Gotify.Client.GetMissedMessages | src/gotify.rs:211-245 | no mark: nothing fetched and nothing returned; otherwise one request for 200 messages, the unseen ones oldest first with images; the batch, cache and world are those of `CatchUp`; the mark moves to the last returned id and is untouched on error or an empty result; every returned id is above the old mark; errors never ask for a reconnect |
| Gotify.Client.GetMessage | src/gotify.rs:248-309 | not connected is an error with no effect; otherwise the first deciding wake-up gives the outcome by `Classify`; a decoded message gets its image by `Resolve`; the outcome, cache and world are those of `Receive`; only a delivered message moves the mark, to its own id |
| Gotify.Client.DeleteMessage | src/gotify.rs:312-325 | exactly one DELETE request for that id; it fails exactly when the server's answer is a failure |
| Dispatch.NatToDecimal | src/main.rs:23 | the rendering is a non-empty string of digits with no leading zero |
| Dispatch.NatToDecimalRoundTrip | src/main.rs:23 | reading the digits back gives the number |
| Dispatch.DecimalRoundTrip | src/main.rs:23 | `format!("{}", priority)` reads back as the priority, negative values included |
| Dispatch.OnMsgCommand | src/main.rs:74-83 | no command configured: none; an unsplittable string and an empty word list are errors; otherwise the first word is the program and the rest are its arguments, in order |
| Dispatch.CommandSeesMessage | src/main.rs:21-26 | the spawned process gets the configured program and arguments, and `GOTIFY_MSG_TITLE`, `GOTIFY_MSG_TEXT` and `GOTIFY_MSG_PRIORITY` carry the title, the text and the priority |
| Dispatch.RunOnMsgCommand | src/main.rs:12-30 | one process is spawned with that invocation; it fails exactly when spawning fails; the exit status is not inspected |
| Dispatch.Handled | src/main.rs:33-62 | handling one message only appends actions, never touches files, and never asks for a reconnect |
| Dispatch.HandledSteps | src/main.rs:42-59 | the actions for one message are: the notification if the priority reaches the threshold, then the command if configured, then the deletion if configured, the last two only when no notification failed |
| Dispatch.NotifiesAtThreshold | src/main.rs:42-49 | a notification is shown exactly when the priority is at least the minimum |
| Dispatch.CommandRunsUnlessStopped | src/main.rs:51-55 | a configured command runs exactly when no notification failed before it; with none configured nothing runs |
| Dispatch.DeletesLastIfConfigured | src/main.rs:57-59 | the message is deleted exactly when auto-deletion is on and handling reached that step, and the deletion is the last action |
| Dispatch.StagesInOrder | src/main.rs:42-59 | notification, command and deletion happen in that order, each at most once |
| Dispatch.FailsOnlyOnNotifyOrDelete | src/main.rs:42-61 | handling fails exactly on a failed notification or a failed deletion, with the matching error |
| Dispatch.CommandOutcomeIgnored | src/main.rs:51-55 | whether the command could be spawned changes neither the result nor the actions |
| Dispatch.HandleMessage | src/main.rs:33-62 | the result and world afterwards are those of `Handled` |
| Dispatch.HandledAll | src/main.rs:101-110 | handling a batch only appends actions and never asks for a reconnect |
| Dispatch.HandledAllStopsAtError | src/main.rs:101-110 | the first failing message ends the batch with its error |
| Dispatch.HandledAllNotifiesInOrder | src/main.rs:96-110 | with a working display and deletion, a batch is handled completely, with one notification per message at or above the threshold, in batch order |
| Dispatch.HandleAll | src/main.rs:101-110 | the result and world afterwards are those of `HandledAll` |
| Dispatch.LiveStep | src/main.rs:115-127 | a delivered message is handled; only `NeedsReconnect` goes back to connecting; any other error is propagated unchanged |
| Dispatch.Messages | src/main.rs:114-127 | the messages among the outcomes of the live reads are at most as many as the reads |
| Dispatch.MessagesSnoc | src/main.rs:114-127 | one more read adds its message, if it delivered one, at the end |
| Dispatch.MessagesOfDeliveries | src/main.rs:114-127 | when every read delivered, the messages are exactly those delivered, in order |
| Dispatch.Advance | src/gotify.rs:240-242 | no message handled leaves the mark as it was; otherwise it is the id of the last one |
| Dispatch.Take | src/main.rs:114-136 | a pass goes on only after a delivered message; the log only grows |
| Dispatch.TakeEnds | src/main.rs:114-136 | a pass reports what `get_message` returned; it stops to reconnect exactly on `NeedsReconnect`, blocked exactly when the socket never woke, fatally with the read's own error on any other read error; a delivered message is handled as `Handled` says, and the pass stops exactly when that handling fails, with its error; no fatal stop is a reconnect request |
| Dispatch.TakePasses | src/main.rs:114-136 | every pass of the daemon's live loop stops as `Stops` says: goes on only after a delivery, reconnects exactly on a reconnect request, blocks exactly when the socket never woke, a fatal stop is never a reconnect request and carries a failed read's error |
| Dispatch.LiveShape | src/main.rs:114-137 | the live loop reads at most once per round and at least once when there is a round; every read before the last delivered a message; the log only grows |
| Dispatch.LiveEnds | src/main.rs:114-137 | the live loop ends to reconnect exactly when its last read asked for it; a fatal end is never a reconnect request and carries a failed read's error; it is blocked exactly when the socket never woke or the rounds ran out after a handled message |
| Dispatch.TakeFatalHandling | src/main.rs:129-136 | a pass that stops fatally after a delivered message failed to show its notification or to delete it |
| Dispatch.TakeFailsOnHandling | src/main.rs:129-136 | every pass of the daemon's live loop fails after a delivery only on the handling |
| Dispatch.LiveFatalHandling | src/main.rs:114-137 | a live loop that ends fatally right after a delivered message ends because that message's notification could not be shown or its deletion failed, in the round of that read |
| Dispatch.LiveAfter | src/main.rs:114-137 | the live loop after some passes and one more: it stops there with that pass's outcome, or goes on with the remaining rounds |
| Dispatch.TakeTurn | src/main.rs:115-136 | one pass on a client is `Take` on the client's connection state and cache; the mark moves to a delivered message's id and stays otherwise |
| Dispatch.LiveOnce | src/main.rs:114-137 | one pass of the live loop on a client keeps `Live` and the mark in step: the loop stops with `Live`'s result, or goes on at the next round |
| Dispatch.LiveLoop | src/main.rs:114-137 | the end, the outcome of every read, the cache and the world are those of `Live` over the daemon's pass; the messages handled live are those delivered; the mark ends at the last of them |
| Dispatch.ServedPhases | src/main.rs:89-137 | nothing happens until a connection is made; the catch-up is `get_missed_messages` from the mark, and its failure ends the session fatally with that error; the missed messages are handled in order by `HandledAll` before the first live read, and a failure there ends it with that error and no live read; live reads happen only after the whole batch was handled; the mark ends at the last message handled, caught up or live; the log only grows |
| Dispatch.ServedEnds | src/main.rs:114-137 | a session ends to reconnect exactly when its last live read asked for it; no fatal end is a reconnect request |
| Dispatch.Serve | src/main.rs:89-137 | connect, catch up, handle the missed messages, then the live loop, with the end, the missed batch, the live outcomes, the mark, the cache and the world of `Served` |
| Dispatch.Ran | src/main.rs:88-138 | one mark and one world per session started, plus the final ones; never more sessions than scripted |
| Dispatch.RanShape | src/main.rs:88-138 | the first client starts from the initial mark; every session but the last asked for a reconnect; the daemon terminates with the setup error before any session, or with the last session's fatal error; it is still running only when the sessions ran out or the last one is blocked |
| Dispatch.RanSession | src/main.rs:85-92 | session `i`'s client starts from the mark (and world) session `i-1` left, and leaves `marks[i+1]` |
| Dispatch.RanNeverStopsOnReconnect | src/main.rs:114-126 | the daemon never terminates on a reconnect request |
| Dispatch.RanStarts | src/main.rs:88-89 | the connect loop seen from its first session is the whole run |
| Dispatch.RanGoesOn | src/main.rs:88-122 | after a session that asked for a reconnect, the run goes on with the next session from the mark and world that session left |
| Dispatch.RanEnds | src/main.rs:88-137 | after a session that ended fatally or blocked, the whole run is known: terminated with that session's error, or still running |
| Dispatch.RanStops | src/main.rs:91-92 | a client that cannot be created terminates the daemon with that error; when the scripted sessions run out it is still running |
| Dispatch.ServeNewClient | src/main.rs:91-137 | creating the client fails exactly as `SetupError` says and then nothing happens; otherwise the new client, handed the mark, serves the session as `serve` does, and the mark it leaves is read back |
| Dispatch.ConnectOnce | src/main.rs:89-138 | one pass of the connect loop keeps `Ran` in step: the loop goes on at the next session, or stops with `Ran`'s result |
| Dispatch.Connecting | src/main.rs:88-138 | the end, the mark of each client, each session's end and the worlds are those of `Ran`; the final mark and world are the last ones |
| Dispatch.Run | src/main.rs:74-138 | a bad command ends the daemon before anything happens; otherwise the end, the marks handed to each client and each session's end are those of `Ran` with the daemon's own policy, and the final mark is the last one |
## Left out

- Logging, the logger set-up and the configuration parser (`src/config.rs`): they do not affect what the core does. `config.rs` is not part of this model. The token is taken as already fetched.
- TLS, the WebSocket handshake, HTTP, JSON and the filesystem are oracles. Each request's answer is already classified as success or failure, and the decoded payload is given. Whether bytes parse as JSON, and the `Path::file_name` and `place_cache_file` computations, are parameters (`Env.fileNames`, `Env.cachePaths`).
- Request URLs are not built: each request is logged by what it asks for (`FetchMessages(200)`, `DeleteMessage(id)`, ...). The "Invalid URL" error for a URL that cannot be a base needs a cannot-be-a-base URL, which the scheme check makes impossible for the configured URL. That error is not modelled.
- Gotify.Client.Connect: the exponential backoff delays between attempts are timing only and are not modelled. The infinite retry is cut to the scripted attempts, and when they run out the session is reported `Blocked`.
- Gotify.Client.GetMessage: a poll that blocks forever is represented by the end of the scripted wake-ups (`Waiting`). Not modelled: the event buffer of capacity 1, the poll token, and the contents of Ping, Binary, Pong and Close frames.
- Gotify.Client.TryConnect: whether the handshake succeeds, the HTTP status check (`close` on a non-success status) and the poller registration are one boolean. The reasons a failed attempt gives are not distinguished, because `Connect` only retries.
- Server and desktop answers are one `Env` and one `Host` per live `get_message` with the handling of its message, and one `Env` and one `Host` for the whole catch-up of a session (`get_missed_messages` and the handling of every missed message). Traces this leaves out: a server or desktop that changes within one live message (for example the application list changing between two lookups of the same resolution), and one that changes between the missed messages of one catch-up. Examples of the second kind: a display that works for the first missed messages and then fails, a deletion that fails after earlier deletions of the same batch succeeded, one application's image download failing while another's works in the same batch, and a spawn that fails for only some missed messages.
- Notif.Build: the macOS build, which sets no urgency, app name or desktop-entry hint, is left out. The failure for a non-UTF-8 image path is left out, because paths are text here. The display call is a boolean (`Host.notifyOk`).
- Dispatch.OnMsgCommand: the shell-word tokeniser (`shlex::split`) is a parameter. Its quoting rules are not modelled.
- Dispatch.RunOnMsgCommand: the process runs to completion in the source (`status()`). Its exit status is ignored and its output is not modelled. The inherited environment is left out; the model holds only the three variables added.
- Dispatch.HandleMessage: the message is passed by value. The `&mut` borrow of the client is used only for the deletion.
- RunEnd.Running and SessionEnd.Blocked stand for a daemon that, in the source, would still be waiting or retrying at that point.
