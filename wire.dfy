/** The pure rules of the Gotify client (src/gotify.rs): the scheme rewrite of the
    constructor, the catch-up filter, and the classification of what one wake-up of
    the socket poller yields. */
module Wire {
  import opened Types

  /** Page size of the catch-up query. */
  const CatchUpLimit: nat := 200

  /** The HTTP(S) scheme of the companion API for a WebSocket scheme. */
  function HttpScheme(wsScheme: string): (r: Result<string>)
    ensures r.Ok? <==> wsScheme == "ws" || wsScheme == "wss"
    ensures wsScheme == "ws" ==> r == Ok("http")
    ensures wsScheme == "wss" ==> r == Ok("https")
    ensures r.Err? ==> r.error == UnexpectedScheme(wsScheme)
  {
    if wsScheme == "wss" then Ok("https")
    else if wsScheme == "ws" then Ok("http")
    else Err(UnexpectedScheme(wsScheme))
  }

  /** Whether `HeaderValue::from_str` accepts `s`: tab, or any character from space upwards except DEL. */
  predicate ValidHeaderValue(s: string) {
    forall i | 0 <= i < |s| :: s[i] == '\t' || (' ' <= s[i] && s[i] as int != 127)
  }

  // ---------------------------------------------------------------------------
  // Catch-up filter: `messages.into_iter().filter(|m| m.id > last_msg_id).rev()`

  /** The messages whose id is strictly above `last`, in their original order. */
  function Newer(ms: seq<Message>, last: Int64): (r: seq<Message>)
    ensures |r| <= |ms|
  {
    if ms == [] then []
    else (if ms[0].id > last then [ms[0]] else []) + Newer(ms[1..], last)
  }

  function Reverse<T>(s: seq<T>): (r: seq<T>)
    ensures |r| == |s|
  {
    if s == [] then [] else Reverse(s[1..]) + [s[0]]
  }

  /** The catch-up result for a server page `all` and a high-water mark `last`. */
  function Unseen(all: seq<Message>, last: Int64): seq<Message> {
    Reverse(Newer(all, last))
  }

  /** The server's order for the catch-up page: strictly decreasing ids. */
  predicate NewestFirst(ms: seq<Message>) {
    forall i, j | 0 <= i < j < |ms| :: ms[i].id > ms[j].id
  }

  /** Delivery order: strictly increasing ids. */
  predicate OldestFirst(ms: seq<Message>) {
    forall i, j | 0 <= i < j < |ms| :: ms[i].id < ms[j].id
  }

  lemma {:induction false} NewerMembers(ms: seq<Message>, last: Int64, m: Message)
    ensures m in Newer(ms, last) <==> m in ms && m.id > last
  {
    if ms != [] {
      NewerMembers(ms[1..], last, m);
      assert ms == [ms[0]] + ms[1..];
    }
  }

  lemma {:induction false} ReverseAt<T>(s: seq<T>, k: nat)
    requires k < |s|
    ensures Reverse(s)[k] == s[|s| - 1 - k]
  {
    if k < |s| - 1 {
      ReverseAt(s[1..], k);
    }
  }

  lemma ReverseMembers<T>(s: seq<T>, x: T)
    ensures x in Reverse(s) <==> x in s
  {
  }

  /** Exactly the server messages newer than the mark are caught up: no more, no fewer. */
  lemma UnseenMembers(all: seq<Message>, last: Int64, m: Message)
    ensures m in Unseen(all, last) <==> m in all && m.id > last
  {
    ReverseMembers(Newer(all, last), m);
    NewerMembers(all, last, m);
  }

  /** On a newest-first page the kept messages are a prefix: the newest ones above the mark. */
  lemma {:induction false} NewerOfNewestFirst(all: seq<Message>, last: Int64)
    requires NewestFirst(all)
    ensures Newer(all, last) == all[..|Newer(all, last)|]
    ensures forall i | |Newer(all, last)| <= i < |all| :: all[i].id <= last
  {
    if all != [] {
      assert NewestFirst(all[1..]);
      NewerOfNewestFirst(all[1..], last);
      if all[0].id <= last {
        forall i | 1 <= i < |all| ensures all[i].id <= last {
          assert all[0].id > all[i].id;
        }
        NewerEmpty(all[1..], last);
      }
    }
  }

  lemma {:induction false} NewerEmpty(ms: seq<Message>, last: Int64)
    requires forall i | 0 <= i < |ms| :: ms[i].id <= last
    ensures Newer(ms, last) == []
  {
    if ms != [] {
      NewerEmpty(ms[1..], last);
    }
  }

  /** A newest-first page is caught up oldest first, so ids are delivered in increasing order. */
  lemma UnseenOldestFirst(all: seq<Message>, last: Int64)
    requires NewestFirst(all)
    ensures OldestFirst(Unseen(all, last))
  {
    var kept := Newer(all, last);
    NewerOfNewestFirst(all, last);
    var r := Unseen(all, last);
    forall i, j | 0 <= i < j < |r| ensures r[i].id < r[j].id {
      ReverseAt(kept, i);
      ReverseAt(kept, j);
      assert kept[|kept| - 1 - i] == all[|kept| - 1 - i];
      assert kept[|kept| - 1 - j] == all[|kept| - 1 - j];
    }
  }

  /** After a non-empty catch-up of a newest-first page, the last delivered message is the
      newest message on the page, and it is above the old mark. */
  lemma CatchUpEndsAtNewest(all: seq<Message>, last: Int64)
    requires NewestFirst(all)
    requires Unseen(all, last) != []
    ensures var r := Unseen(all, last);
      r[|r| - 1] == all[0] && r[|r| - 1].id > last
  {
    var kept := Newer(all, last);
    NewerOfNewestFirst(all, last);
    ReverseAt(kept, |kept| - 1);
    UnseenMembers(all, last, all[0]);
  }

  function SampleMessage(id: Int64): Message {
    Message(id, 1, "", "", 0, "", None)
  }

  function Ids(ms: seq<Message>): (r: seq<Int64>)
    ensures |r| == |ms|
    ensures forall i | 0 <= i < |ms| :: r[i] == ms[i].id
  {
    if ms == [] then [] else [ms[0].id] + Ids(ms[1..])
  }

  /** Mark 6, server page [7, 6, 5, 4]: only 7 is caught up. */
  lemma CatchUpExample()
    ensures Ids(Unseen([SampleMessage(7), SampleMessage(6), SampleMessage(5), SampleMessage(4)], 6)) == [7]
  {
  }

  /** Mark n, page [n+2, n+1, n, n-1]: exactly n+1 then n+2, the boundary id n is not re-delivered. */
  lemma CatchUpBoundary(n: Int64)
    requires -0x8000_0000_0000_0000 < n < 0x7FFF_FFFF_FFFF_FFFE
    ensures Ids(Unseen([SampleMessage(n + 2), SampleMessage(n + 1), SampleMessage(n), SampleMessage(n - 1)], n))
         == [n + 1, n + 2]
  {
    var page := [SampleMessage(n + 2), SampleMessage(n + 1), SampleMessage(n), SampleMessage(n - 1)];
    assert page[1..][1..][1..][1..] == [];
    assert Newer(page[1..][1..], n) == [];
    var kept := [SampleMessage(n + 2), SampleMessage(n + 1)];
    assert Newer(page, n) == kept;
    assert Reverse(kept[1..]) == [SampleMessage(n + 1)];
    assert Unseen(page, n) == [SampleMessage(n + 1), SampleMessage(n + 2)];
  }

  // ---------------------------------------------------------------------------
  // One wake-up of the read loop of `get_message`

  /** A WebSocket frame as read; a Text frame carries its already-decoded JSON payload
      (None when decoding fails), a Ping whether flushing the queued Pong succeeded. */
  datatype Frame = Text(decoded: Option<Message>) | Ping(flushed: bool) | Other(kind: FrameKind)

  /** The outcome of `ws.read()`. */
  datatype ReadOutcome = Received(frame: Frame) | Reset | ReadError

  /** What one `poller.poll` call and, when it reports an event, the following read yield. */
  datatype Wake = NoEvents | Interrupted | PollError | Readable(read: ReadOutcome)

  /** What the read loop does with a wake-up: go round again, fail, or hand on a message. */
  datatype Step = Skip | Fail(error: Error) | Decoded(msg: Message)

  function Classify(w: Wake): (s: Step)
    ensures s.Skip? <==> w == NoEvents || w == Readable(Received(Ping(true)))
    ensures s == Fail(NeedsReconnect(PollInterrupted)) <==> w == Interrupted
    ensures s == Fail(NeedsReconnect(ResetWithoutClosingHandshake)) <==> w == Readable(Reset)
    ensures (s.Fail? && s.error.NeedsReconnect?) <==> w == Interrupted || w == Readable(Reset)
    ensures s.Decoded? <==> w.Readable? && w.read.Received? && w.read.frame.Text? && w.read.frame.decoded.Some?
    ensures s.Decoded? ==> s.msg == w.read.frame.decoded.value
    ensures w.Readable? && w.read.Received? && w.read.frame.Other? ==>
              s == Fail(UnexpectedMessageType(w.read.frame.kind))
  {
    match w
    case NoEvents => Skip
    case Interrupted => Fail(NeedsReconnect(PollInterrupted))
    case PollError => Fail(PollFailed)
    case Readable(Reset) => Fail(NeedsReconnect(ResetWithoutClosingHandshake))
    case Readable(ReadError) => Fail(ReadFailed)
    case Readable(Received(Ping(flushed))) => if flushed then Skip else Fail(FlushFailed)
    case Readable(Received(Other(kind))) => Fail(UnexpectedMessageType(kind))
    case Readable(Received(Text(decoded))) =>
      match decoded
      case Some(m) => Decoded(m)
      case None => Fail(DecodeFailed)
  }

  /** The index of the first wake-up that ends the read loop; `|ws|` when none does. */
  function FirstDecisive(ws: seq<Wake>): (k: nat)
    ensures k <= |ws|
    ensures forall j | 0 <= j < k :: Classify(ws[j]).Skip?
    ensures k < |ws| ==> !Classify(ws[k]).Skip?
  {
    if ws == [] then 0
    else if !Classify(ws[0]).Skip? then 0
    else 1 + FirstDecisive(ws[1..])
  }
}
