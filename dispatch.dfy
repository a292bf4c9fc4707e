/** The daemon's dispatch policy (src/main.rs): what is done with each received message,
    the configured reaction command, and the connect / catch up / read loop with its
    reconnect-or-terminate decision. */
module Dispatch {
  import opened Types
  import Notif
  import opened Wire
  import opened ImageCache
  import opened Gotify

  // ---------------------------------------------------------------------------
  // Decimal rendering of the priority, as `format!("{}", priority)`

  predicate IsDigits(s: string) {
    forall i | 0 <= i < |s| :: '0' <= s[i] <= '9'
  }

  function DigitChar(d: nat): (c: char)
    requires d < 10
    ensures '0' <= c <= '9' && c as int - '0' as int == d
  {
    (('0' as int) + d) as char
  }

  /** `n` in decimal, without leading zeros. */
  function NatToDecimal(n: nat): (s: string)
    ensures |s| > 0 && IsDigits(s)
    ensures s[0] == '0' ==> n == 0
    decreases n
  {
    if n < 10 then [DigitChar(n)] else NatToDecimal(n / 10) + [DigitChar(n % 10)]
  }

  /** `i` in decimal, with a leading `-` when negative. */
  function Decimal(i: int): string {
    if i < 0 then "-" + NatToDecimal(-i) else NatToDecimal(i)
  }

  /** The value of a string of decimal digits. */
  function DigitsValue(s: string): nat
    requires IsDigits(s)
  {
    if s == [] then 0 else DigitsValue(s[..|s| - 1]) * 10 + (s[|s| - 1] as int - '0' as int)
  }

  /** Reading a decimal integer back: optional `-`, then at least one digit. */
  function ParseDecimal(s: string): Option<int> {
    if |s| > 1 && s[0] == '-' && IsDigits(s[1..]) then Some(0 - DigitsValue(s[1..]))
    else if |s| > 0 && IsDigits(s) then Some(DigitsValue(s))
    else None
  }

  lemma {:induction false} NatToDecimalRoundTrip(n: nat)
    ensures DigitsValue(NatToDecimal(n)) == n
    decreases n
  {
    if n >= 10 {
      var prefix := NatToDecimal(n / 10);
      var s := prefix + [DigitChar(n % 10)];
      assert s[..|s| - 1] == prefix;
      NatToDecimalRoundTrip(n / 10);
    }
  }

  /** The rendered priority reads back as the priority. */
  lemma DecimalRoundTrip(i: int)
    ensures ParseDecimal(Decimal(i)) == Some(i)
  {
    if i < 0 {
      var digits := NatToDecimal(-i);
      assert Decimal(i)[1..] == digits;
      NatToDecimalRoundTrip(-i);
    } else {
      NatToDecimalRoundTrip(i);
    }
  }

  // ---------------------------------------------------------------------------
  // The reaction command

  /** The configured command, split: program and arguments. */
  datatype CommandLine = CommandLine(program: string, args: seq<string>)

  /** `action.on_msg_command` split with the shell-word tokeniser `tokenise` (None when the
      string cannot be split); the first word is the program. */
  function OnMsgCommand(configured: Option<string>, tokenise: string -> Option<seq<string>>): (r: Result<Option<CommandLine>>)
    ensures configured.None? ==> r == Ok(None)
    ensures configured.Some? && tokenise(configured.value).None? ==> r == Err(SplitFailed(configured.value))
    ensures configured.Some? && tokenise(configured.value) == Some([]) ==> r == Err(EmptyCommand)
    ensures r.Ok? && r.value.Some? <==> configured.Some? && tokenise(configured.value).Some? && tokenise(configured.value).value != []
    ensures r.Ok? && r.value.Some? ==>
              tokenise(configured.value) == Some([r.value.value.program] + r.value.value.args)
  {
    match configured
    case None => Ok(None)
    case Some(cmd) =>
      match tokenise(cmd)
      case None => Err(SplitFailed(cmd))
      case Some(words) =>
        if words == [] then Err(EmptyCommand)
        else
          assert words == [words[0]] + words[1..];
          Ok(Some(CommandLine(words[0], words[1..])))
  }

  const PriorityVar: string := "GOTIFY_MSG_PRIORITY"
  const TitleVar: string := "GOTIFY_MSG_TITLE"
  const TextVar: string := "GOTIFY_MSG_TEXT"

  /** The process started for `m`: the configured program and arguments, and three
      environment variables describing the message. */
  function CommandInvocation(m: Message, cmd: CommandLine): Invocation {
    Invocation(cmd.program, cmd.args, [(PriorityVar, Decimal(m.priority)), (TitleVar, m.title), (TextVar, m.text)])
  }

  /** The value bound to `name`, first binding first. */
  function EnvLookup(env: seq<(string, string)>, name: string): Option<string> {
    if env == [] then None else if env[0].0 == name then Some(env[0].1) else EnvLookup(env[1..], name)
  }

  /** The command sees the message's title, text and (decimal, read back exactly) priority. */
  lemma CommandSeesMessage(m: Message, cmd: CommandLine)
    ensures var inv := CommandInvocation(m, cmd);
      && inv.program == cmd.program && inv.args == cmd.args
      && EnvLookup(inv.env, TitleVar) == Some(m.title)
      && EnvLookup(inv.env, TextVar) == Some(m.text)
      && EnvLookup(inv.env, PriorityVar).Some?
      && ParseDecimal(EnvLookup(inv.env, PriorityVar).value) == Some(m.priority as int)
  {
    assert TitleVar[12] != TextVar[12] && PriorityVar[11] != TextVar[11] && PriorityVar[11] != TitleVar[11];
    var env := CommandInvocation(m, cmd).env;
    assert EnvLookup(env[1..][1..], TextVar) == Some(m.text);
    assert EnvLookup(env[1..], TextVar) == Some(m.text);
    DecimalRoundTrip(m.priority);
  }

  /** Whether the notification display and the process spawn succeed. */
  datatype Host = Host(notifyOk: bool, spawnOk: bool)

  /** `run_on_msg_command`: the process is started; only a failure to start it is an error
      (its exit status is not inspected). */
  method RunOnMsgCommand(m: Message, cmd: CommandLine, host: Host, io: Io) returns (r: Result<()>, io': Io)
    ensures io' == Logged(io, RunCommand(CommandInvocation(m, cmd)))
    ensures r.Ok? <==> host.spawnOk
    ensures r.Err? ==> r.error == SpawnFailed
  {
    io' := Logged(io, RunCommand(CommandInvocation(m, cmd)));
    if host.spawnOk {
      r := Ok(());
    } else {
      r := Err(SpawnFailed);
    }
  }

  // ---------------------------------------------------------------------------
  // Handling one message

  /** The configured policy: the notification threshold, the command and auto-deletion. */
  datatype Policy = Policy(minPriority: Int64, command: Option<CommandLine>, autoDelete: bool)

  datatype Handling = Handling(result: Result<()>, io: Io)

  /** What `handle_message` does with `m`: notify if the priority reaches the threshold (a
      display failure is returned), run the command (a failure is only logged), delete the
      message if configured (a failure is returned). */
  function Handled(m: Message, policy: Policy, host: Host, env: Env, io: Io): (h: Handling)
    ensures io.log <= h.io.log && h.io.files == io.files
    ensures h.result.Err? ==> !h.result.error.NeedsReconnect?
  {
    var shown := m.priority >= policy.minPriority;
    var io1 := if shown then Logged(io, ShowNotification(Notif.Build(m))) else io;
    if shown && !host.notifyOk then Handling(Err(NotifyFailed), io1)
    else
      var io2 := if policy.command.Some? then Logged(io1, RunCommand(CommandInvocation(m, policy.command.value))) else io1;
      if !policy.autoDelete then Handling(Ok(()), io2)
      else
        var io3 := Logged(io2, Action.DeleteMessage(m.id));
        match env.deletion
        case Answer(_) => Handling(Ok(()), io3)
        case Failure(f) => Handling(Err(HttpFailed(Action.DeleteMessage(m.id), f)), io3)
  }

  /** The order of the side effects of handling one message: notify, then command, then delete. */
  function Stage(a: Action): nat {
    match a
    case ShowNotification(_) => 0
    case RunCommand(_) => 1
    case _ => 2
  }

  /** The actions taken for `m` on top of `io`. */
  function NewActions(m: Message, policy: Policy, host: Host, env: Env, io: Io): seq<Action> {
    Handled(m, policy, host, env, io).io.log[|io.log|..]
  }

  /** Whether a failed notification cut the handling of `m` short. */
  predicate NotifyStopped(m: Message, policy: Policy, host: Host) {
    m.priority >= policy.minPriority && !host.notifyOk
  }

  /** The actions for one message: at most a notification, a command and a deletion, in that order. */
  lemma HandledSteps(m: Message, policy: Policy, host: Host, env: Env, io: Io)
    ensures NewActions(m, policy, host, env, io) ==
      (if m.priority >= policy.minPriority then [ShowNotification(Notif.Build(m))] else []) +
      (if !NotifyStopped(m, policy, host) && policy.command.Some?
       then [RunCommand(CommandInvocation(m, policy.command.value))] else []) +
      (if !NotifyStopped(m, policy, host) && policy.autoDelete then [Action.DeleteMessage(m.id)] else [])
  {
  }

  /** A notification is shown exactly when the priority reaches the threshold. */
  lemma NotifiesAtThreshold(m: Message, policy: Policy, host: Host, env: Env, io: Io)
    ensures ShowNotification(Notif.Build(m)) in NewActions(m, policy, host, env, io) <==>
              m.priority >= policy.minPriority
  {
    HandledSteps(m, policy, host, env, io);
  }

  /** The configured command runs, whatever its outcome, unless a failed notification stopped
      handling; without a configured command nothing is run. */
  lemma CommandRunsUnlessStopped(m: Message, policy: Policy, host: Host, env: Env, io: Io)
    ensures policy.command.Some? ==>
              (RunCommand(CommandInvocation(m, policy.command.value)) in NewActions(m, policy, host, env, io) <==>
               !NotifyStopped(m, policy, host))
    ensures policy.command.None? ==> forall a | a in NewActions(m, policy, host, env, io) :: !a.RunCommand?
  {
    HandledSteps(m, policy, host, env, io);
  }

  /** The message is deleted only when so configured, and then as the last action. */
  lemma DeletesLastIfConfigured(m: Message, policy: Policy, host: Host, env: Env, io: Io)
    ensures var acts := NewActions(m, policy, host, env, io);
      && ((exists a | a in acts :: a.DeleteMessage?) <==> policy.autoDelete && !NotifyStopped(m, policy, host))
      && (policy.autoDelete && !NotifyStopped(m, policy, host) ==> acts[|acts| - 1] == Action.DeleteMessage(m.id))
  {
    HandledSteps(m, policy, host, env, io);
    var acts := NewActions(m, policy, host, env, io);
    if policy.autoDelete && !NotifyStopped(m, policy, host) {
      assert acts[|acts| - 1].DeleteMessage?;
    }
  }

  /** Notification, command and deletion happen in that order, each at most once. */
  lemma StagesInOrder(m: Message, policy: Policy, host: Host, env: Env, io: Io)
    ensures var acts := NewActions(m, policy, host, env, io);
      forall i, j | 0 <= i < j < |acts| :: Stage(acts[i]) < Stage(acts[j])
  {
  }

  /** Only a failed notification or a failed deletion makes handling fail, and the error says which. */
  lemma FailsOnlyOnNotifyOrDelete(m: Message, policy: Policy, host: Host, env: Env, io: Io)
    ensures var h := Handled(m, policy, host, env, io);
      && (h.result.Err? <==> NotifyStopped(m, policy, host) || (policy.autoDelete && env.deletion.Failure?))
      && (NotifyStopped(m, policy, host) ==> h.result == Err(NotifyFailed))
      && (!NotifyStopped(m, policy, host) && policy.autoDelete && env.deletion.Failure? ==>
            h.result == Err(HttpFailed(Action.DeleteMessage(m.id), env.deletion.fault)))
  {
  }

  /** A failing reaction command never changes what handling a message returns or does. */
  lemma CommandOutcomeIgnored(m: Message, policy: Policy, host: Host, env: Env, io: Io)
    ensures Handled(m, policy, host.(spawnOk := true), env, io) == Handled(m, policy, host.(spawnOk := false), env, io)
  {
  }

  /** `handle_message`. */
  method HandleMessage(m: Message, policy: Policy, host: Host, client: Client, env: Env, io: Io)
    returns (r: Result<()>, io': Io)
    ensures Handling(r, io') == Handled(m, policy, host, env, io)
  {
    io' := io;
    if m.priority >= policy.minPriority {
      io' := Logged(io', ShowNotification(Notif.Build(m)));
      if !host.notifyOk {
        return Err(NotifyFailed), io';
      }
    }
    if policy.command.Some? {
      var ran;
      ran, io' := RunOnMsgCommand(m, policy.command.value, host, io');
    }
    if policy.autoDelete {
      r, io' := client.DeleteMessage(m.id, env, io');
      if r.Err? {
        return r, io';
      }
    }
    r := Ok(());
  }

  /** Handling each message of `ms` in turn, stopping at the first failure. */
  function HandledAll(ms: seq<Message>, policy: Policy, host: Host, env: Env, io: Io): (h: Handling)
    ensures io.log <= h.io.log
    ensures h.result.Err? ==> !h.result.error.NeedsReconnect?
    decreases |ms|
  {
    if ms == [] then Handling(Ok(()), io)
    else
      var prev := HandledAll(ms[..|ms| - 1], policy, host, env, io);
      if prev.result.Err? then prev else Handled(ms[|ms| - 1], policy, host, env, prev.io)
  }

  lemma {:induction false} HandledAllStopsAtError(ms: seq<Message>, i: nat, policy: Policy, host: Host, env: Env, io: Io)
    requires i <= |ms|
    requires HandledAll(ms[..i], policy, host, env, io).result.Err?
    ensures HandledAll(ms, policy, host, env, io) == HandledAll(ms[..i], policy, host, env, io)
    decreases |ms| - i
  {
    if i < |ms| {
      assert ms[..i + 1][..i] == ms[..i];
      assert HandledAll(ms[..i + 1], policy, host, env, io) == HandledAll(ms[..i], policy, host, env, io);
      HandledAllStopsAtError(ms, i + 1, policy, host, env, io);
    } else {
      assert ms[..i] == ms;
    }
  }

  /** The notifications among `log`, in order. */
  function Shown(log: seq<Action>): seq<Notification> {
    if log == [] then []
    else Shown(log[..|log| - 1]) + (if log[|log| - 1].ShowNotification? then [log[|log| - 1].n] else [])
  }

  lemma {:induction false} ShownAppend(a: seq<Action>, b: seq<Action>)
    ensures Shown(a + b) == Shown(a) + Shown(b)
    decreases |b|
  {
    if b == [] {
      assert a + b == a;
    } else {
      assert (a + b)[..|a + b| - 1] == a + b[..|b| - 1];
      ShownAppend(a, b[..|b| - 1]);
    }
  }

  /** The notifications owed for `ms`: one per message at or above the threshold, in order. */
  function Owed(ms: seq<Message>, minPriority: Int64): seq<Notification> {
    if ms == [] then []
    else Owed(ms[..|ms| - 1], minPriority) +
         (if ms[|ms| - 1].priority >= minPriority then [Notif.Build(ms[|ms| - 1])] else [])
  }

  lemma {:induction false} ShownNone(log: seq<Action>)
    requires forall i | 0 <= i < |log| :: !log[i].ShowNotification?
    ensures Shown(log) == []
    decreases |log|
  {
    if log != [] {
      ShownNone(log[..|log| - 1]);
    }
  }

  /** With a working display and deletion, a batch of messages is handled completely, and the
      notifications shown are one per message at or above the threshold, in message order. */
  lemma {:induction false} HandledAllNotifiesInOrder(ms: seq<Message>, policy: Policy, host: Host, env: Env, io: Io)
    requires host.notifyOk && (policy.autoDelete ==> env.deletion.Answer?)
    ensures var h := HandledAll(ms, policy, host, env, io);
      h.result.Ok? && Shown(h.io.log[|io.log|..]) == Owed(ms, policy.minPriority)
    decreases |ms|
  {
    if ms != [] {
      var init := ms[..|ms| - 1];
      var m := ms[|ms| - 1];
      HandledAllNotifiesInOrder(init, policy, host, env, io);
      var prev := HandledAll(init, policy, host, env, io);
      var h := HandledAll(ms, policy, host, env, io);
      assert h == Handled(m, policy, host, env, prev.io);
      var acts := NewActions(m, policy, host, env, prev.io);
      var before := prev.io.log[|io.log|..];
      assert h.io.log == prev.io.log + acts;
      assert h.io.log[|io.log|..] == before + acts;
      ShownAppend(before, acts);
      ShownOfActions(m, policy, host, env, prev.io);
    }
  }

  /** The notifications among an optional notification followed by other actions. */
  lemma ShownOfSteps(n: Notification, notified: bool, others: seq<Action>)
    requires forall i | 0 <= i < |others| :: !others[i].ShowNotification?
    ensures Shown((if notified then [ShowNotification(n)] else []) + others) == if notified then [n] else []
  {
    var first: seq<Action> := if notified then [ShowNotification(n)] else [];
    ShownNone(others);
    ShownAppend(first, others);
    if notified {
      assert first[..0] == [];
    }
  }

  /** The notifications among the actions for one message. */
  lemma ShownOfActions(m: Message, policy: Policy, host: Host, env: Env, io: Io)
    requires host.notifyOk
    ensures Shown(NewActions(m, policy, host, env, io)) ==
              if m.priority >= policy.minPriority then [Notif.Build(m)] else []
  {
    HandledSteps(m, policy, host, env, io);
    var first: seq<Action> := if m.priority >= policy.minPriority then [ShowNotification(Notif.Build(m))] else [];
    var command: seq<Action> :=
      if !NotifyStopped(m, policy, host) && policy.command.Some?
      then [RunCommand(CommandInvocation(m, policy.command.value))] else [];
    var deletion: seq<Action> := if !NotifyStopped(m, policy, host) && policy.autoDelete then [Action.DeleteMessage(m.id)] else [];
    assert NewActions(m, policy, host, env, io) == first + (command + deletion);
    assert forall i | 0 <= i < |command + deletion| :: !(command + deletion)[i].ShowNotification?;
    ShownOfSteps(Notif.Build(m), m.priority >= policy.minPriority, command + deletion);
  }

  /** The missed-message loop of `main`: each message is handled in turn; the first failure
      is returned. */
  method HandleAll(ms: seq<Message>, policy: Policy, host: Host, client: Client, env: Env, io: Io)
    returns (r: Result<()>, io': Io)
    ensures Handling(r, io') == HandledAll(ms, policy, host, env, io)
  {
    io' := io;
    for i := 0 to |ms|
      invariant HandledAll(ms[..i], policy, host, env, io) == Handling(Ok(()), io')
    {
      assert ms[..i + 1][..i] == ms[..i];
      var res;
      res, io' := HandleMessage(ms[i], policy, host, client, env, io');
      if res.Err? {
        HandledAllStopsAtError(ms, i + 1, policy, host, env, io);
        return res, io';
      }
    }
    assert ms[..|ms|] == ms;
    r := Ok(());
  }

  // ---------------------------------------------------------------------------
  // The connection loop

  /** What the live loop does with the outcome of one `get_message`. */
  datatype Next = Handle(msg: Message) | Reconnect | Propagate(error: Error) | Wait

  /** Only `NeedsReconnect` leads back to the connect loop; every other error ends the daemon. */
  function LiveStep(d: Delivery): (n: Next)
    ensures n.Handle? <==> d.Delivered?
    ensures n.Handle? ==> n.msg == d.msg
    ensures n == Reconnect <==> d.Failed? && d.error.NeedsReconnect?
    ensures n.Propagate? <==> d.Failed? && !d.error.NeedsReconnect?
    ensures n.Propagate? ==> n.error == d.error
  {
    match d
    case Delivered(m) => Handle(m)
    case Failed(e) => if e.NeedsReconnect? then Reconnect else Propagate(e)
    case Waiting => Wait
  }

  /** The messages among the outcomes of successive `get_message` calls, in order. */
  function Messages(outcomes: seq<Delivery>): (ms: seq<Message>)
    ensures |ms| <= |outcomes|
  {
    if outcomes == [] then []
    else
      var last := outcomes[|outcomes| - 1];
      Messages(outcomes[..|outcomes| - 1]) + (if last.Delivered? then [last.msg] else [])
  }

  /** One more outcome adds its message, if it carries one, at the end. */
  lemma MessagesSnoc(outcomes: seq<Delivery>, d: Delivery)
    ensures Messages(outcomes + [d]) == Messages(outcomes) + (if d.Delivered? then [d.msg] else [])
  {
    assert (outcomes + [d])[..|outcomes|] == outcomes;
  }

  /** When every outcome is a delivery, the messages are exactly those delivered, in order. */
  lemma {:induction false} MessagesOfDeliveries(outcomes: seq<Delivery>)
    requires forall i | 0 <= i < |outcomes| :: outcomes[i].Delivered?
    ensures var ms := Messages(outcomes);
      |ms| == |outcomes| && forall i | 0 <= i < |ms| :: ms[i] == outcomes[i].msg
    decreases |outcomes|
  {
    if outcomes != [] {
      MessagesOfDeliveries(outcomes[..|outcomes| - 1]);
    }
  }

  /** The mark after handling `ms`: the last id, or the old mark when there is none. */
  function Advance(mark: Option<Int64>, ms: seq<Message>): (m: Option<Int64>)
    ensures ms == [] ==> m == mark
    ensures ms != [] ==> m == Some(ms[|ms| - 1].id)
  {
    if ms == [] then mark else Some(ms[|ms| - 1].id)
  }

  /** The world one live `get_message` and the handling of its message see: the socket's
      wake-ups, the server's answers and the desktop. */
  datatype Round = Round(wakes: seq<Wake>, env: Env, host: Host)

  /** One pass of the live loop: what `get_message` returned, whether the loop stops there
      (and how), the cache and the world afterwards. */
  datatype Turn = Turn(delivery: Delivery, stop: Option<SessionEnd>, cache: Cache, io: Io)

  /** One pass of the live loop of `main`: read a message and handle it; a `NeedsReconnect`
      breaks out to the connect loop, any other error (of the read or of the handling) is
      returned, and a scripted socket that never wakes leaves the loop blocked. */
  function Take(r: Round, policy: Policy, connected: bool, cache: Cache, io: Io): (t: Turn)
    ensures t.stop.None? ==> t.delivery.Delivered?
    ensures io.log <= t.io.log
  {
    var rc := Receive(connected, r.wakes, cache, r.env, io);
    match LiveStep(rc.delivery)
    case Reconnect => Turn(rc.delivery, Some(Reconnecting), rc.cache, rc.io)
    case Propagate(e) => Turn(rc.delivery, Some(Fatal(e)), rc.cache, rc.io)
    case Wait => Turn(rc.delivery, Some(Blocked), rc.cache, rc.io)
    case Handle(m) =>
      var h := Handled(m, policy, r.host, r.env, rc.io);
      Turn(rc.delivery, if h.result.Err? then Some(Fatal(h.result.error)) else None, rc.cache, h.io)
  }

  /** A pass reports what `get_message` returned; it stops to reconnect exactly on a
      reconnect request, blocked exactly when the socket never woke, and fatally on any other
      read error (with that error) or on a failed handling of the delivered message. */
  lemma TakeEnds(r: Round, policy: Policy, connected: bool, cache: Cache, io: Io)
    ensures var t := Take(r, policy, connected, cache, io);
      var rc := Receive(connected, r.wakes, cache, r.env, io);
      && t.delivery == rc.delivery
      && (t.stop == Some(Reconnecting) <==> LiveStep(t.delivery) == Reconnect)
      && (t.stop == Some(Blocked) <==> t.delivery == Waiting)
      && (t.delivery.Failed? && !t.delivery.error.NeedsReconnect? ==> t.stop == Some(Fatal(t.delivery.error)))
      && (t.delivery.Delivered? ==>
            var h := Handled(t.delivery.msg, policy, r.host, r.env, rc.io);
            t.io == h.io && (h.result.Err? <==> t.stop.Some?) && (h.result.Err? ==> t.stop == Some(Fatal(h.result.error))))
      && (t.stop.Some? && t.stop.value.Fatal? ==> !t.stop.value.error.NeedsReconnect?)
  {
  }

  /** What a pass of the live loop promises about how it stops, in terms of what
      `get_message` returned alone: it goes on only after a delivered message; it stops to
      reconnect exactly on a reconnect request and blocked exactly when the socket never
      woke; a fatal stop is never a reconnect request and carries a failed read's own error;
      the desktop log only grows. */
  predicate Stops(t: Turn, io: Io)
  {
    && (t.stop.None? ==> t.delivery.Delivered?)
    && (t.stop == Some(Reconnecting) <==> LiveStep(t.delivery) == Reconnect)
    && (t.stop == Some(Blocked) <==> t.delivery == Waiting)
    && (t.stop.Some? && t.stop.value.Fatal? ==>
          !t.stop.value.error.NeedsReconnect? && (t.delivery.Failed? ==> t.stop.value.error == t.delivery.error))
    && io.log <= t.io.log
  }

  /** Every pass `take` makes, in any round and from any state, stops as `Stops` says. */
  ghost predicate Passes(take: (Round, Cache, Io) -> Turn)
  {
    forall r: Round, cache: Cache, io: Io :: Stops(take(r, cache, io), io)
  }

  /** One pass of the live loop of `main` with `policy`, on a connection that is up or not. */
  function TakeWith(policy: Policy, connected: bool): (Round, Cache, Io) -> Turn
  {
    (r: Round, cache: Cache, io: Io) => Take(r, policy, connected, cache, io)
  }

  /** The passes of `main`'s live loop stop as `Stops` says. */
  lemma TakePasses(policy: Policy, connected: bool)
    ensures Passes(TakeWith(policy, connected))
  {
    forall r: Round, cache: Cache, io: Io
      ensures Stops(TakeWith(policy, connected)(r, cache, io), io)
    {
      TakeEnds(r, policy, connected, cache, io);
    }
  }

  /** `take` makes the passes of `main`'s live loop with `policy`, on a connection that is up
      or not. */
  ghost predicate TakesAs(take: (Round, Cache, Io) -> Turn, policy: Policy, connected: bool)
  {
    forall r: Round, cache: Cache, io: Io {:trigger Take(r, policy, connected, cache, io)} ::
      take(r, cache, io) == Take(r, policy, connected, cache, io)
  }

  lemma TakeWithTakes(policy: Policy, connected: bool)
    ensures TakesAs(TakeWith(policy, connected), policy, connected)
  {
  }

  /** How the live loop ended, the outcome of each `get_message`, the cache and the world. */
  datatype LiveState = LiveState(end: SessionEnd, outcomes: seq<Delivery>, cache: Cache, io: Io)

  /** The live loop of `main`, one round per `get_message`, passes (`take`) after passes
      until one stops; blocked when the scripted rounds run out. */
  function Live(take: (Round, Cache, Io) -> Turn, rounds: seq<Round>, cache: Cache, io: Io): LiveState
    decreases |rounds|
  {
    if rounds == [] then LiveState(Blocked, [], cache, io)
    else
      var t := take(rounds[0], cache, io);
      if t.stop.Some? then LiveState(t.stop.value, [t.delivery], t.cache, t.io)
      else
        var rest := Live(take, rounds[1..], t.cache, t.io);
        rest.(outcomes := [t.delivery] + rest.outcomes)
  }

  /** The live loop reads at most once per round, and at least once when there is a round;
      every read before the last delivered a message; the desktop log only grows. */
  lemma {:induction false} LiveShape(take: (Round, Cache, Io) -> Turn, rounds: seq<Round>, cache: Cache, io: Io)
    requires Passes(take)
    ensures var s := Live(take, rounds, cache, io);
      && |s.outcomes| <= |rounds| && (s.outcomes == [] <==> rounds == [])
      && (forall i | 0 <= i < |s.outcomes| - 1 :: s.outcomes[i].Delivered?)
      && io.log <= s.io.log
    decreases |rounds|
  {
    if rounds != [] {
      var t := take(rounds[0], cache, io);
      assert Stops(t, io);
      if t.stop.None? {
        LiveShape(take, rounds[1..], t.cache, t.io);
        var rest := Live(take, rounds[1..], t.cache, t.io);
        var s := Live(take, rounds, cache, io);
        assert s.outcomes == [t.delivery] + rest.outcomes;
        forall i | 0 <= i < |s.outcomes| - 1
          ensures s.outcomes[i].Delivered?
        {
          if 0 < i {
            assert s.outcomes[i] == rest.outcomes[i - 1];
          }
        }
      }
    }
  }

  /** The live loop ends by reconnecting exactly when the last read asked for it; a fatal end
      is never a reconnect request and carries the read's own error; a blocked end means the
      socket never woke or the rounds ran out with every message handled. */
  lemma {:induction false} LiveEnds(take: (Round, Cache, Io) -> Turn, rounds: seq<Round>, cache: Cache, io: Io)
    requires rounds != [] && Passes(take)
    ensures var s := Live(take, rounds, cache, io);
      s.outcomes != [] &&
      var last := s.outcomes[|s.outcomes| - 1];
      && (s.end == Reconnecting <==> LiveStep(last) == Reconnect)
      && (s.end.Fatal? ==> !s.end.error.NeedsReconnect? && (last.Failed? ==> s.end.error == last.error))
      && (s.end == Blocked <==> last == Waiting || (|s.outcomes| == |rounds| && last.Delivered? && !s.end.Fatal?))
    decreases |rounds|
  {
    var t := take(rounds[0], cache, io);
    assert Stops(t, io);
    if t.stop.None? && |rounds| > 1 {
      LiveEnds(take, rounds[1..], t.cache, t.io);
    }
  }

  /** A pass that stops fatally after a delivered message stops because that message's
      notification could not be shown, or because its deletion failed. */
  lemma TakeFatalHandling(r: Round, policy: Policy, connected: bool, cache: Cache, io: Io)
    ensures var t := Take(r, policy, connected, cache, io);
      t.stop.Some? && t.stop.value.Fatal? && t.delivery.Delivered? ==>
        HandlingFailure(t.delivery.msg, policy, r, t.stop.value.error)
  {
    var t := Take(r, policy, connected, cache, io);
    TakeEnds(r, policy, connected, cache, io);
    if t.delivery.Delivered? {
      var rc := Receive(connected, r.wakes, cache, r.env, io);
      FailsOnlyOnNotifyOrDelete(t.delivery.msg, policy, r.host, r.env, rc.io);
    }
  }

  /** The two ways handling `m` in round `r` can fail with `e`. */
  predicate HandlingFailure(m: Message, policy: Policy, r: Round, e: Error)
  {
    (NotifyStopped(m, policy, r.host) && e == NotifyFailed) ||
    (!NotifyStopped(m, policy, r.host) && policy.autoDelete && r.env.deletion.Failure? &&
     e == HttpFailed(Action.DeleteMessage(m.id), r.env.deletion.fault))
  }

  /** Pass `t` in round `r`, if it stops fatally after a delivered message, failed to handle it. */
  predicate FatalOnHandling(t: Turn, r: Round, policy: Policy)
  {
    t.stop.Some? && t.stop.value.Fatal? && t.delivery.Delivered? ==>
      HandlingFailure(t.delivery.msg, policy, r, t.stop.value.error)
  }

  /** Every pass `take` makes that stops fatally after a delivered message failed to handle it. */
  ghost predicate FailsOnHandling(take: (Round, Cache, Io) -> Turn, policy: Policy)
  {
    forall r: Round, cache: Cache, io: Io :: FatalOnHandling(take(r, cache, io), r, policy)
  }

  /** The passes of `main`'s live loop fail after a delivery only on the handling. */
  lemma TakeFailsOnHandling(policy: Policy, connected: bool)
    ensures FailsOnHandling(TakeWith(policy, connected), policy)
  {
    forall r: Round, cache: Cache, io: Io
      ensures FatalOnHandling(TakeWith(policy, connected)(r, cache, io), r, policy)
    {
      TakeFatalHandling(r, policy, connected, cache, io);
    }
  }

  /** A live loop that ends fatally right after a delivered message ends because that
      message's notification could not be shown, or because its deletion failed. */
  lemma {:induction false} LiveFatalHandling(take: (Round, Cache, Io) -> Turn, policy: Policy, rounds: seq<Round>,
                                             cache: Cache, io: Io)
    requires rounds != [] && FailsOnHandling(take, policy)
    ensures var s := Live(take, rounds, cache, io);
      var k := |s.outcomes| - 1;
      0 <= k < |rounds| &&
      (s.end.Fatal? && s.outcomes[k].Delivered? ==> HandlingFailure(s.outcomes[k].msg, policy, rounds[k], s.end.error))
    decreases |rounds|
  {
    var t := take(rounds[0], cache, io);
    if t.stop.Some? {
      assert FatalOnHandling(t, rounds[0], policy);
    } else if |rounds| > 1 {
      LiveFatalHandling(take, policy, rounds[1..], t.cache, t.io);
      var rest := Live(take, rounds[1..], t.cache, t.io);
      assert Live(take, rounds, cache, io) == rest.(outcomes := [t.delivery] + rest.outcomes);
      assert rounds[|rest.outcomes|] == rounds[1..][|rest.outcomes| - 1];
    }
  }

  /** The live loop after `done` passes, one more: it stops there or goes on with the rest. */
  lemma LiveAfter(take: (Round, Cache, Io) -> Turn, rounds: seq<Round>, i: nat, cache0: Cache, io0: Io,
                  done: seq<Delivery>, cache: Cache, io: Io, t: Turn)
    requires i < |rounds|
    requires var s := Live(take, rounds[i..], cache, io);
      Live(take, rounds, cache0, io0) == s.(outcomes := done + s.outcomes)
    requires t == take(rounds[i], cache, io)
    ensures t.stop.Some? ==> Live(take, rounds, cache0, io0) == LiveState(t.stop.value, done + [t.delivery], t.cache, t.io)
    ensures t.stop.None? ==>
              var s := Live(take, rounds[i + 1..], t.cache, t.io);
              Live(take, rounds, cache0, io0) == s.(outcomes := (done + [t.delivery]) + s.outcomes)
  {
    assert rounds[i..][0] == rounds[i] && rounds[i..][1..] == rounds[i + 1..];
    if t.stop.None? {
      var s := Live(take, rounds[i + 1..], t.cache, t.io);
      assert done + ([t.delivery] + s.outcomes) == (done + [t.delivery]) + s.outcomes;
    }
  }

  /** One pass of the live loop on a client. */
  method TakeTurn(client: Client, r: Round, policy: Policy, io: Io) returns (d: Delivery, stop: Option<SessionEnd>, io': Io)
    modifies client`appImgs, client`lastMsgId
    ensures Take(r, policy, client.ws.Some? && client.poller.Some?, old(client.appImgs), io) ==
              Turn(d, stop, client.appImgs, io')
    ensures client.lastMsgId == if d.Delivered? then Some(d.msg.id) else old(client.lastMsgId)
  {
    var used;
    d, used, io' := client.GetMessage(r.wakes, r.env, io);
    match LiveStep(d) {
      case Handle(m) =>
        var handled;
        handled, io' := HandleMessage(m, policy, r.host, client, r.env, io');
        stop := if handled.Err? then Some(Fatal(handled.error)) else None;
      case Reconnect =>
        stop := Some(Reconnecting);
      case Propagate(e) =>
        stop := Some(Fatal(e));
      case Wait =>
        stop := Some(Blocked);
    }
  }

  /** One pass (`take`) of the live loop of `main` on a client, after the passes that
      returned `done` (whose messages are `live`): the loop stops there, or goes on at the next
      round. */
  method LiveOnce(client: Client, ghost take: (Round, Cache, Io) -> Turn, rounds: seq<Round>, i: nat, policy: Policy,
                  ghost cache0: Cache, ghost io0: Io, ghost mark0: Option<Int64>, ghost done: seq<Delivery>,
                  live: seq<Message>, io: Io)
    returns (stop: Option<SessionEnd>, live': seq<Message>, io': Io, ghost done': seq<Delivery>)
    modifies client`appImgs, client`lastMsgId
    requires TakesAs(take, policy, client.ws.Some? && client.poller.Some?)
    requires i < |rounds| && live == Messages(done) && client.lastMsgId == Advance(mark0, live)
    requires var s := Live(take, rounds[i..], client.appImgs, io);
      Live(take, rounds, cache0, io0) == s.(outcomes := done + s.outcomes)
    ensures live' == Messages(done') && client.lastMsgId == Advance(mark0, live')
    ensures stop.None? ==>
              var s := Live(take, rounds[i + 1..], client.appImgs, io');
              Live(take, rounds, cache0, io0) == s.(outcomes := done' + s.outcomes)
    ensures stop.Some? ==> Live(take, rounds, cache0, io0) == LiveState(stop.value, done', client.appImgs, io')
  {
    ghost var cache := client.appImgs;
    var d;
    d, stop, io' := TakeTurn(client, rounds[i], policy, io);
    LiveAfter(take, rounds, i, cache0, io0, done, cache, io, Turn(d, stop, client.appImgs, io'));
    MessagesSnoc(done, d);
    done' := done + [d];
    live' := if d.Delivered? then live + [d.msg] else live;
  }

  /** The live loop of `main` on a client, whose passes `take` makes: read, handle, until a
      read or a handling fails. */
  method LiveLoop(client: Client, ghost take: (Round, Cache, Io) -> Turn, rounds: seq<Round>, policy: Policy, io: Io)
    returns (end: SessionEnd, live: seq<Message>, io': Io, ghost outcomes: seq<Delivery>)
    modifies client`appImgs, client`lastMsgId
    requires TakesAs(take, policy, client.ws.Some? && client.poller.Some?)
    ensures Live(take, rounds, old(client.appImgs), io) == LiveState(end, outcomes, client.appImgs, io')
    ensures live == Messages(outcomes)
    ensures client.lastMsgId == Advance(old(client.lastMsgId), live)
  {
    ghost var cache0 := client.appImgs;
    io', live, outcomes := io, [], [];
    var i: nat := 0;
    while i < |rounds|
      invariant i <= |rounds|
      invariant TakesAs(take, policy, client.ws.Some? && client.poller.Some?)
      invariant live == Messages(outcomes) && client.lastMsgId == Advance(old(client.lastMsgId), live)
      invariant var s := Live(take, rounds[i..], client.appImgs, io');
        Live(take, rounds, cache0, io) == s.(outcomes := outcomes + s.outcomes)
    {
      var stop;
      stop, live, io', outcomes := LiveOnce(client, take, rounds, i, policy, cache0, io, old(client.lastMsgId), outcomes, live, io');
      if stop.Some? {
        return stop.value, live, io', outcomes;
      }
      i := i + 1;
    }
    assert outcomes + [] == outcomes;
    end := Blocked;
  }

  /** The outside world as one connection sees it: the outcomes of its connection attempts,
      the server's answers and the desktop during the catch-up, and one round per live
      `get_message`. */
  datatype Session = Session(attempts: seq<bool>, env: Env, host: Host, rounds: seq<Round>)

  /** How one connection ends: back to connecting, a fatal error, or still running when the
      scripted world runs out (connecting, or blocked waiting for a frame). */
  datatype SessionEnd = Reconnecting | Fatal(error: Error) | Blocked

  /** How one connection ended, the missed messages handled, the outcome of each live
      `get_message`, the mark, the cache and the world afterwards. */
  datatype SessionState = SessionState(
    end: SessionEnd, missed: seq<Message>, outcomes: seq<Delivery>, mark: Option<Int64>, cache: Cache, io: Io)

  /** One pass of the connect loop of `main` on a fresh client whose mark is `mark`: connect,
      catch up, handle the missed messages in order, then the live loop. */
  function Served(s: Session, policy: Policy, mark: Option<Int64>, cache: Cache, io: Io): SessionState
  {
    if true !in s.attempts then SessionState(Blocked, [], [], mark, cache, io)
    else
      var b := CatchUp(mark, cache, s.env, io);
      match b.msgs
      case Err(e) => SessionState(Fatal(e), [], [], mark, b.cache, b.io)
      case Ok(missed) =>
        var h := HandledAll(missed, policy, s.host, s.env, b.io);
        var mark1 := Advance(mark, missed);
        if h.result.Err? then SessionState(Fatal(h.result.error), missed, [], mark1, b.cache, h.io)
        else
          var l := Live(TakeWith(policy, true), s.rounds, b.cache, h.io);
          SessionState(l.end, missed, l.outcomes, Advance(mark1, Messages(l.outcomes)), l.cache, l.io)
  }

  /** A pass of the connect loop, phase by phase: nothing happens until a connection is
      made; the catch-up is the one of `get_missed_messages` from the mark, and its failure
      ends the daemon; the missed messages are handled in order before the first live read;
      the mark ends at the last message handled; the desktop log only grows. */
  lemma ServedPhases(s: Session, policy: Policy, mark: Option<Int64>, cache: Cache, io: Io)
    // Not connected yet when the scripted attempts run out: nothing else happens.
    ensures var r := Served(s, policy, mark, cache, io);
      true !in s.attempts ==> r == SessionState(Blocked, [], [], mark, cache, io)
    // The catch-up is the one of `get_missed_messages` with this mark; its failure ends the daemon.
    ensures var r := Served(s, policy, mark, cache, io);
      true in s.attempts && CatchUp(mark, cache, s.env, io).msgs.Err? ==>
      r == SessionState(Fatal(CatchUp(mark, cache, s.env, io).msgs.error), [], [], mark,
                        CatchUp(mark, cache, s.env, io).cache, CatchUp(mark, cache, s.env, io).io)
    ensures var r := Served(s, policy, mark, cache, io);
      r.missed != [] ==> true in s.attempts && CatchUp(mark, cache, s.env, io).msgs == Ok(r.missed)
    // The missed messages are handled in order, all of them before the first live read.
    ensures var r := Served(s, policy, mark, cache, io);
      true in s.attempts && CatchUp(mark, cache, s.env, io).msgs.Ok? ==>
      var b := CatchUp(mark, cache, s.env, io);
      var h := HandledAll(r.missed, policy, s.host, s.env, b.io);
      r.missed == b.msgs.value &&
      h.io.log <= r.io.log &&
      (h.result.Err? ==> r.end == Fatal(h.result.error) && r.outcomes == [] && r.io == h.io)
    ensures var r := Served(s, policy, mark, cache, io);
      r.outcomes != [] ==>
      true in s.attempts && CatchUp(mark, cache, s.env, io).msgs.Ok? &&
      HandledAll(r.missed, policy, s.host, s.env, CatchUp(mark, cache, s.env, io).io).result.Ok?
    // The mark ends at the last message handled, caught up or live.
    ensures var r := Served(s, policy, mark, cache, io);
      r.mark == Advance(Advance(mark, r.missed), Messages(r.outcomes))
    ensures var r := Served(s, policy, mark, cache, io);
      io.log <= r.io.log
  {
    if true in s.attempts {
      var b := CatchUp(mark, cache, s.env, io);
      if b.msgs.Ok? {
        var h := HandledAll(b.msgs.value, policy, s.host, s.env, b.io);
        if h.result.Ok? {
          TakePasses(policy, true);
          LiveShape(TakeWith(policy, true), s.rounds, b.cache, h.io);
        }
      }
    }
  }

  /** Only the live loop asks for a reconnect, and only when its last read did; a session
      never ends fatally on a reconnect request. */
  lemma ServedEnds(s: Session, policy: Policy, mark: Option<Int64>, cache: Cache, io: Io)
    ensures var r := Served(s, policy, mark, cache, io);
      && (r.end == Reconnecting <==> r.outcomes != [] && LiveStep(r.outcomes[|r.outcomes| - 1]) == Reconnect)
      && (r.end.Fatal? ==> !r.end.error.NeedsReconnect?)
  {
    var b := CatchUp(mark, cache, s.env, io);
    if true in s.attempts && b.msgs.Ok? {
      var h := HandledAll(b.msgs.value, policy, s.host, s.env, b.io);
      if h.result.Ok? && s.rounds != [] {
        TakePasses(policy, true);
        LiveEnds(TakeWith(policy, true), s.rounds, b.cache, h.io);
      }
    }
  }

  /** One pass of the connect loop of `main` on a fresh client. */
  method Serve(client: Client, session: Session, policy: Policy, io: Io)
    returns (end: SessionEnd, missed: seq<Message>, live: seq<Message>, io': Io, ghost outcomes: seq<Delivery>)
    modifies client
    ensures Served(session, policy, old(client.lastMsgId), old(client.appImgs), io) ==
              SessionState(end, missed, outcomes, client.lastMsgId, client.appImgs, io')
    ensures live == Messages(outcomes)
  {
    missed, live, io', outcomes := [], [], io, [];
    var connected, tries := client.Connect(session.attempts);
    if !connected {
      return Blocked, missed, live, io', outcomes;
    }
    var caughtUp;
    caughtUp, io' := client.GetMissedMessages(session.env, io');
    if caughtUp.Err? {
      return Fatal(caughtUp.error), missed, live, io', outcomes;
    }
    missed := caughtUp.value;
    var handled;
    handled, io' := HandleAll(missed, policy, session.host, client, session.env, io');
    if handled.Err? {
      return Fatal(handled.error), missed, live, io', outcomes;
    }
    TakeWithTakes(policy, true);
    end, live, io', outcomes := LiveLoop(client, TakeWith(policy, true), session.rounds, policy, io');
  }

  /** How the daemon ends: with a fatal error, or still running when the scripted world runs out. */
  datatype RunEnd = Terminated(error: Error) | Running

  /** How the daemon ended; the mark each client started from (and, last, the final mark); how
      each session ended; the world at the start of each session (and, last, the final world). */
  datatype RunState = RunState(end: RunEnd, marks: seq<Option<Int64>>, ends: seq<SessionEnd>, worlds: seq<Io>)

  /** What the sessions of one daemon do: serve with `policy` on a fresh client, whose image
      cache starts empty, from the mark and the world the previous session left. */
  function ServeWith(policy: Policy): (Session, Option<Int64>, Io) -> SessionState
  {
    (s: Session, mark: Option<Int64>, io: Io) => Served(s, policy, mark, map[], io)
  }

  /** `serve` serves the sessions of one daemon with `policy`, as `ServeWith(policy)` does. */
  ghost predicate ServesAs(serve: (Session, Option<Int64>, Io) -> SessionState, policy: Policy)
  {
    forall s: Session, mark: Option<Int64>, io: Io {:trigger Served(s, policy, mark, map[], io)} ::
      serve(s, mark, io) == Served(s, policy, mark, map[], io)
  }

  lemma ServeWithServes(policy: Policy)
    ensures ServesAs(ServeWith(policy), policy)
  {
  }

  /** The connect loop of `main` from mark `mark`, whatever one session does (`serve`): a new
      client per session (`setup` is the error creating one returns, if any), starting from the
      mark the previous session left, for as long as sessions end asking for a reconnect. */
  function Ran(setup: Option<Error>, serve: (Session, Option<Int64>, Io) -> SessionState,
               sessions: seq<Session>, mark: Option<Int64>, io: Io): (r: RunState)
    ensures |r.marks| == |r.ends| + 1 && |r.worlds| == |r.ends| + 1 && |r.ends| <= |sessions|
    decreases |sessions|
  {
    if sessions == [] then RunState(Running, [mark], [], [io])
    else
      match setup
      case Some(e) => RunState(Terminated(e), [mark], [], [io])
      case None =>
        var s := serve(sessions[0], mark, io);
        match s.end
        case Fatal(e) => RunState(Terminated(e), [mark, s.mark], [s.end], [io, s.io])
        case Blocked => RunState(Running, [mark, s.mark], [s.end], [io, s.io])
        case Reconnecting =>
          var rest := Ran(setup, serve, sessions[1..], s.mark, s.io);
          RunState(rest.end, [mark] + rest.marks, [Reconnecting] + rest.ends, [io] + rest.worlds)
  }

  /** The connect loop starts from the given mark and world; only a reconnect request starts
      another session; the daemon stops on a setup error or on a session's fatal error, and is
      still running only when the sessions ran out or the last one is blocked. */
  lemma {:induction false} RanShape(setup: Option<Error>, serve: (Session, Option<Int64>, Io) -> SessionState,
                                    sessions: seq<Session>, mark: Option<Int64>, io: Io)
    ensures var r := Ran(setup, serve, sessions, mark, io);
      && r.marks[0] == mark && r.worlds[0] == io
      && (forall i | 0 <= i < |r.ends| - 1 :: r.ends[i] == Reconnecting)
      && (r.end.Terminated? ==>
            if setup.Some? then r.end.error == setup.value && r.ends == []
            else r.ends != [] && r.ends[|r.ends| - 1] == Fatal(r.end.error))
      && (r.end == Running ==> |r.ends| == |sessions| || (r.ends != [] && r.ends[|r.ends| - 1] == Blocked))
    decreases |sessions|
  {
    if sessions != [] && setup.None? {
      var s := serve(sessions[0], mark, io);
      if s.end == Reconnecting {
        RanShape(setup, serve, sessions[1..], s.mark, s.io);
        var rest := Ran(setup, serve, sessions[1..], s.mark, s.io);
        var r := Ran(setup, serve, sessions, mark, io);
        assert r == RunState(rest.end, [mark] + rest.marks, [Reconnecting] + rest.ends, [io] + rest.worlds);
        forall i | 0 <= i < |r.ends| - 1
          ensures r.ends[i] == Reconnecting
        {
          if 0 < i {
            assert r.ends[i] == rest.ends[i - 1];
          }
        }
      }
    }
  }

  /** Session `session`, started from `mark` and `io`, ends with `end`, leaving `mark'` and `io'`. */
  predicate Step(serve: (Session, Option<Int64>, Io) -> SessionState, session: Session,
                 mark: Option<Int64>, io: Io, end: SessionEnd, mark': Option<Int64>, io': Io)
  {
    var s := serve(session, mark, io);
    s.end == end && s.mark == mark' && s.io == io'
  }

  /** Session `i`'s client starts from the mark the previous session left, and from the
      world it left. */
  lemma {:induction false} RanSession(setup: Option<Error>, serve: (Session, Option<Int64>, Io) -> SessionState,
                                      sessions: seq<Session>, mark: Option<Int64>, io: Io, i: nat)
    requires i < |Ran(setup, serve, sessions, mark, io).ends|
    ensures var r := Ran(setup, serve, sessions, mark, io);
      Step(serve, sessions[i], r.marks[i], r.worlds[i], r.ends[i], r.marks[i + 1], r.worlds[i + 1])
    decreases i
  {
    if 0 < i {
      var s := serve(sessions[0], mark, io);
      var r := Ran(setup, serve, sessions, mark, io);
      var rest := Ran(setup, serve, sessions[1..], s.mark, s.io);
      assert r == RunState(rest.end, [mark] + rest.marks, [Reconnecting] + rest.ends, [io] + rest.worlds);
      RanSession(setup, serve, sessions[1..], s.mark, s.io, i - 1);
      assert sessions[i] == sessions[1..][i - 1];
    }
  }

  /** The connect loop seen from session `i`, after the sessions before it left the marks
      `pm`, the ends `pe` and the worlds `pw`. */
  predicate RanFrom(setup: Option<Error>, serve: (Session, Option<Int64>, Io) -> SessionState, sessions: seq<Session>,
                    mark0: Option<Int64>, io0: Io, i: nat, pm: seq<Option<Int64>>, pe: seq<SessionEnd>, pw: seq<Io>,
                    mark: Option<Int64>, io: Io)
    requires i <= |sessions|
  {
    var r := Ran(setup, serve, sessions[i..], mark, io);
    Ran(setup, serve, sessions, mark0, io0) == RunState(r.end, pm + r.marks, pe + r.ends, pw + r.worlds)
  }

  /** The connect loop seen from its first session. */
  lemma RanStarts(setup: Option<Error>, serve: (Session, Option<Int64>, Io) -> SessionState, sessions: seq<Session>,
                  mark: Option<Int64>, io: Io)
    ensures RanFrom(setup, serve, sessions, mark, io, 0, [], [], [], mark, io)
  {
    assert sessions[0..] == sessions;
    var r := Ran(setup, serve, sessions, mark, io);
    assert [] + r.marks == r.marks && [] + r.ends == r.ends && [] + r.worlds == r.worlds;
  }

  /** The connect loop after one more session that asked for a reconnect, leaving `mark'`
      and `io'`: it goes on with the next session from there. */
  lemma RanGoesOn(serve: (Session, Option<Int64>, Io) -> SessionState, sessions: seq<Session>,
                  mark0: Option<Int64>, io0: Io, i: nat, pm: seq<Option<Int64>>, pe: seq<SessionEnd>, pw: seq<Io>,
                  mark: Option<Int64>, io: Io, mark': Option<Int64>, io': Io)
    requires i < |sessions| && RanFrom(None, serve, sessions, mark0, io0, i, pm, pe, pw, mark, io)
    requires Step(serve, sessions[i], mark, io, Reconnecting, mark', io')
    ensures RanFrom(None, serve, sessions, mark0, io0, i + 1, pm + [mark], pe + [Reconnecting], pw + [io], mark', io')
  {
    var tail := sessions[i..];
    assert tail[0] == sessions[i] && tail[1..] == sessions[i + 1..];
    var r := Ran(None, serve, tail[1..], mark', io');
    assert Ran(None, serve, tail, mark, io) == RunState(r.end, [mark] + r.marks, [Reconnecting] + r.ends, [io] + r.worlds);
    assert pm + ([mark] + r.marks) == (pm + [mark]) + r.marks;
    assert pe + ([Reconnecting] + r.ends) == (pe + [Reconnecting]) + r.ends;
    assert pw + ([io] + r.worlds) == (pw + [io]) + r.worlds;
  }

  /** The connect loop after one more session that ended fatally or blocked, leaving `mark'`
      and `io'`: the whole run is known. */
  lemma RanEnds(serve: (Session, Option<Int64>, Io) -> SessionState, sessions: seq<Session>,
                mark0: Option<Int64>, io0: Io, i: nat, pm: seq<Option<Int64>>, pe: seq<SessionEnd>, pw: seq<Io>,
                mark: Option<Int64>, io: Io, end: SessionEnd, mark': Option<Int64>, io': Io)
    requires i < |sessions| && RanFrom(None, serve, sessions, mark0, io0, i, pm, pe, pw, mark, io)
    requires Step(serve, sessions[i], mark, io, end, mark', io') && end != Reconnecting
    ensures Ran(None, serve, sessions, mark0, io0) ==
              RunState(if end.Fatal? then Terminated(end.error) else Running,
                       (pm + [mark]) + [mark'], pe + [end], (pw + [io]) + [io'])
  {
    var tail := sessions[i..];
    assert tail[0] == sessions[i];
    assert Ran(None, serve, tail, mark, io) ==
             RunState(if end.Fatal? then Terminated(end.error) else Running, [mark, mark'], [end], [io, io']);
    assert pm + [mark, mark'] == (pm + [mark]) + [mark'];
    assert pw + [io, io'] == (pw + [io]) + [io'];
  }

  /** The connect loop seen from a session whose client cannot be created, or from the end of
      the scripted sessions. */
  lemma RanStops(setup: Option<Error>, serve: (Session, Option<Int64>, Io) -> SessionState, sessions: seq<Session>,
                 mark0: Option<Int64>, io0: Io, i: nat, pm: seq<Option<Int64>>, pe: seq<SessionEnd>, pw: seq<Io>,
                 mark: Option<Int64>, io: Io)
    requires i <= |sessions| && RanFrom(setup, serve, sessions, mark0, io0, i, pm, pe, pw, mark, io)
    ensures i == |sessions| ==> Ran(setup, serve, sessions, mark0, io0) == RunState(Running, pm + [mark], pe, pw + [io])
    ensures i < |sessions| && setup.Some? ==>
              Ran(setup, serve, sessions, mark0, io0) == RunState(Terminated(setup.value), pm + [mark], pe, pw + [io])
  {
    assert pe + [] == pe;
    if i == |sessions| {
      assert sessions[i..] == [];
    }
  }

  /** The daemon never stops on a reconnect request: those always lead to a new session. */
  lemma RanNeverStopsOnReconnect(gotify: GotifyConfig, xdgOk: bool, httpClientOk: bool, policy: Policy,
                                 sessions: seq<Session>, mark: Option<Int64>, io: Io)
    ensures var r := Ran(SetupError(gotify, xdgOk, httpClientOk), ServeWith(policy), sessions, mark, io);
      r.end.Terminated? ==> !r.end.error.NeedsReconnect?
  {
    var r := Ran(SetupError(gotify, xdgOk, httpClientOk), ServeWith(policy), sessions, mark, io);
    RanShape(SetupError(gotify, xdgOk, httpClientOk), ServeWith(policy), sessions, mark, io);
    if r.end.Terminated? && SetupError(gotify, xdgOk, httpClientOk).None? {
      var k := |r.ends| - 1;
      RanSession(SetupError(gotify, xdgOk, httpClientOk), ServeWith(policy), sessions, mark, io, k);
      ServedEnds(sessions[k], policy, r.marks[k], map[], r.worlds[k]);
    }
  }

  /** One pass of the connect loop of `main`: a new client, handed the mark the previous
      client left, serves one session; the mark it leaves is read back. */
  method ServeNewClient(gotify: GotifyConfig, xdgOk: bool, httpClientOk: bool, session: Session,
                        policy: Policy, ghost serve: (Session, Option<Int64>, Io) -> SessionState,
                        mark: Option<Int64>, io: Io)
    returns (setup: Option<Error>, end: SessionEnd, mark': Option<Int64>, io': Io)
    requires ServesAs(serve, policy)
    ensures setup == SetupError(gotify, xdgOk, httpClientOk)
    ensures setup.Some? ==> mark' == mark && io' == io
    ensures setup.None? ==> Step(serve, session, mark, io, end, mark', io')
  {
    var made := Client.New(gotify, xdgOk, httpClientOk);
    if made.Err? {
      return Some(made.error), Blocked, mark, io;
    }
    var client := made.value;
    client.lastMsgId := mark;
    var missed, live;
    ghost var outcomes;
    end, missed, live, io', outcomes := Serve(client, session, policy, io);
    setup, mark' := None, client.lastMsgId;
  }

  /** One pass of the connect loop seen from session `i`: either the loop goes on at session
      `i + 1`, or it stops and the whole run is known. */
  method ConnectOnce(gotify: GotifyConfig, xdgOk: bool, httpClientOk: bool, policy: Policy,
                     ghost setup: Option<Error>, ghost serve: (Session, Option<Int64>, Io) -> SessionState,
                     sessions: seq<Session>, io0: Io, i: nat,
                     ghost pm: seq<Option<Int64>>, ghost pe: seq<SessionEnd>, ghost pw: seq<Io>,
                     mark: Option<Int64>, io: Io)
    returns (stopped: Option<RunEnd>, mark': Option<Int64>, io': Io,
             ghost pm': seq<Option<Int64>>, ghost pe': seq<SessionEnd>, ghost pw': seq<Io>)
    requires i < |sessions| && ServesAs(serve, policy) && setup == SetupError(gotify, xdgOk, httpClientOk)
    requires RanFrom(setup, serve, sessions, None, io0, i, pm, pe, pw, mark, io)
    ensures stopped.None? ==> RanFrom(setup, serve, sessions, None, io0, i + 1, pm', pe', pw', mark', io')
    ensures stopped.Some? ==>
              Ran(setup, serve, sessions, None, io0) == RunState(stopped.value, pm' + [mark'], pe', pw' + [io'])
  {
    var made, sessionEnd;
    made, sessionEnd, mark', io' := ServeNewClient(gotify, xdgOk, httpClientOk, sessions[i], policy, serve, mark, io);
    if made.Some? {
      RanStops(setup, serve, sessions, None, io0, i, pm, pe, pw, mark, io);
      return Some(Terminated(made.value)), mark, io, pm, pe, pw;
    }
    pm', pe', pw' := pm + [mark], pe + [sessionEnd], pw + [io];
    if sessionEnd == Reconnecting {
      RanGoesOn(serve, sessions, None, io0, i, pm, pe, pw, mark, io, mark', io');
      stopped := None;
    } else {
      RanEnds(serve, sessions, None, io0, i, pm, pe, pw, mark, io, sessionEnd, mark', io');
      stopped := Some(if sessionEnd.Fatal? then Terminated(sessionEnd.error) else Running);
    }
  }

  /** The last element of `s + [x]` is `x`. */
  lemma LastOfSnoc<T>(s: seq<T>, x: T)
    ensures |s + [x]| == |s| + 1 && (s + [x])[|s + [x]| - 1] == x
  {
  }

  /** The connect loop of `main`: a new client per session, each handed the mark the
      previous one left, until a session ends with anything but a reconnect request. `setup`
      is what creating a client returns and `serve` what one session does; both are ghost
      names for the run as `Ran` states it. */
  method Connecting(gotify: GotifyConfig, xdgOk: bool, httpClientOk: bool, policy: Policy,
                    ghost setup: Option<Error>, ghost serve: (Session, Option<Int64>, Io) -> SessionState,
                    sessions: seq<Session>, io: Io)
    returns (end: RunEnd, mark: Option<Int64>, io': Io, ghost marks: seq<Option<Int64>>, ghost ends: seq<SessionEnd>,
             ghost worlds: seq<Io>)
    requires ServesAs(serve, policy) && setup == SetupError(gotify, xdgOk, httpClientOk)
    ensures Ran(setup, serve, sessions, None, io) == RunState(end, marks, ends, worlds)
    ensures mark == marks[|marks| - 1] && io' == worlds[|worlds| - 1]
  {
    ghost var pm, pe, pw := [], [], [];
    var at, world := None, io;
    var i: nat := 0;
    var stopped: Option<RunEnd> := None;
    RanStarts(setup, serve, sessions, None, io);
    while stopped.None? && i < |sessions|
      invariant i <= |sessions| && ServesAs(serve, policy)
      invariant stopped.None? ==> RanFrom(setup, serve, sessions, None, io, i, pm, pe, pw, at, world)
      invariant stopped.Some? ==> Ran(setup, serve, sessions, None, io) == RunState(stopped.value, pm + [at], pe, pw + [world])
      decreases |sessions| - i, if stopped.None? then 1 else 0
    {
      stopped, at, world, pm, pe, pw :=
        ConnectOnce(gotify, xdgOk, httpClientOk, policy, setup, serve, sessions, io, i, pm, pe, pw, at, world);
      if stopped.None? {
        i := i + 1;
      }
    }
    if stopped.None? {
      RanStops(setup, serve, sessions, None, io, i, pm, pe, pw, at, world);
      stopped := Some(Running);
    }
    LastOfSnoc(pm, at);
    LastOfSnoc(pw, world);
    return stopped.value, at, world, pm + [at], pe, pw + [world];
  }

  /** `main` after configuration: split the command, then connect, serve and reconnect. The
      last handled message id is kept across client instances and handed to each new client. */
  method Run(gotify: GotifyConfig, minPriority: Int64, onMsg: Option<string>,
             tokenise: string -> Option<seq<string>>, xdgOk: bool, httpClientOk: bool,
             sessions: seq<Session>, io: Io)
    returns (end: RunEnd, mark: Option<Int64>, io': Io, ghost marks: seq<Option<Int64>>, ghost ends: seq<SessionEnd>)
    ensures OnMsgCommand(onMsg, tokenise).Err? ==>
              end == Terminated(OnMsgCommand(onMsg, tokenise).error) && io' == io && marks == [None] && ends == []
    ensures OnMsgCommand(onMsg, tokenise).Ok? ==>
              var policy := Policy(minPriority, OnMsgCommand(onMsg, tokenise).value, gotify.autoDelete);
              var r := Ran(SetupError(gotify, xdgOk, httpClientOk), ServeWith(policy), sessions, None, io);
              r.end == end && r.marks == marks && r.ends == ends && r.worlds[|r.worlds| - 1] == io'
    ensures mark == marks[|marks| - 1]
  {
    var command := OnMsgCommand(onMsg, tokenise);
    if command.Err? {
      return Terminated(command.error), None, io, [None], [];
    }
    var policy := Policy(minPriority, command.value, gotify.autoDelete);
    ghost var worlds;
    ServeWithServes(policy);
    end, mark, io', marks, ends, worlds := Connecting(gotify, xdgOk, httpClientOk, policy, SetupError(gotify, xdgOk, httpClientOk), ServeWith(policy), sessions, io);
  }
}
