/**
 Delivery of a session's events over a WebSocket: replay from a cursor, then polling.

 The connection is a class whose loop emits messages one by one; `PollStep` is the same
 poll on values. A run interleaves commits by any writer with polls that may break off in
 the middle of a batch, and with reconnects.
 */
module EventStream {
  import opened Options
  import opened Decimals
  import opened EventLog

  // ----- the cursor in the query string -----

  /** How the character classes of `str.isdigit` and `int` treat a character. */
  datatype DigitKind = DecimalDigit(value: nat) | OtherDigit | NotDigit

  datatype CursorError = ValueError

  predicate IsDigitString(raw: string, kind: char -> DigitKind)
  {
    raw != [] && forall i :: 0 <= i < |raw| ==> !kind(raw[i]).NotDigit?
  }

  predicate IsDecimalString(raw: string, kind: char -> DigitKind)
  {
    forall i :: 0 <= i < |raw| ==> kind(raw[i]).DecimalDigit?
  }

  function DecimalValue(raw: string, kind: char -> DigitKind): nat
    requires IsDecimalString(raw, kind)
  {
    if raw == [] then 0
    else 10 * DecimalValue(raw[..|raw| - 1], kind) + kind(raw[|raw| - 1]).value
  }

  /** `int(raw) if raw and raw.isdigit() else None` */
  function ParseCursor(raw: Option<string>, kind: char -> DigitKind): Result<Option<nat>, CursorError>
  {
    if raw.None? || !IsDigitString(raw.value, kind) then Ok(None)
    else if IsDecimalString(raw.value, kind) then Ok(Some(DecimalValue(raw.value, kind)))
    else Err(ValueError)
  }

  ghost predicate KnowsAscii(kind: char -> DigitKind)
  {
    forall c: char :: IsDigit(c) ==> kind(c) == DecimalDigit(DigitValue(c))
  }

  lemma {:induction false} DecimalValueOfDigits(raw: string, kind: char -> DigitKind)
    requires KnowsAscii(kind) && AllDigits(raw)
    ensures IsDecimalString(raw, kind) && DecimalValue(raw, kind) == NatValue(raw)
  {
    if raw == [] {
    } else {
      DecimalValueOfDigits(raw[..|raw| - 1], kind);
    }
  }

  /** A client that passes back the `event_id` it was sent resumes exactly there. */
  lemma CursorRoundTrip(id: nat, kind: char -> DigitKind)
    requires KnowsAscii(kind)
    ensures ParseCursor(Some(NatText(id)), kind) == Ok(Some(id))
  {
    NatRoundTrip(id);
    DecimalValueOfDigits(NatText(id), kind);
  }

  /**
   `isdigit` and `int` disagree: opening a connection raises exactly for a cursor of digits
   only of which one is not a decimal digit. Every other cursor gives a position: none for
   a missing or non-numeric one, and the number it denotes otherwise.
   */
  lemma CursorRaisesExactlyWhen(raw: Option<string>, kind: char -> DigitKind)
    ensures ParseCursor(raw, kind) == Err(ValueError)
      <==> raw.Some? && IsDigitString(raw.value, kind) && exists i :: 0 <= i < |raw.value| && kind(raw.value[i]).OtherDigit?
    ensures ParseCursor(raw, kind) == Ok(None)
      <==> raw.None? || raw.value == [] || exists i :: 0 <= i < |raw.value| && kind(raw.value[i]).NotDigit?
  {
    if raw.Some? && IsDigitString(raw.value, kind) && !IsDecimalString(raw.value, kind) {
      var i :| 0 <= i < |raw.value| && !kind(raw.value[i]).DecimalDigit?;
      assert kind(raw.value[i]).OtherDigit?;
    }
  }

  const SUPERSCRIPT_TWO: char := '\U{00B2}'

  /** Unicode gives the superscript two a digit value but not a decimal one. */
  ghost predicate KnowsSuperscripts(kind: char -> DigitKind) { kind(SUPERSCRIPT_TWO).OtherDigit? }

  /** So a cursor that ends in a superscript two raises, whatever decimal digits precede it. */
  lemma SuperscriptRaises(id: nat, kind: char -> DigitKind)
    requires KnowsAscii(kind) && KnowsSuperscripts(kind)
    ensures ParseCursor(Some([SUPERSCRIPT_TWO]), kind) == Err(ValueError)
    ensures ParseCursor(Some(NatText(id) + [SUPERSCRIPT_TWO]), kind) == Err(ValueError)
  {
    var raw := NatText(id) + [SUPERSCRIPT_TWO];
    NatRoundTrip(id);
    DecimalValueOfDigits(NatText(id), kind);
    forall i | 0 <= i < |raw|
      ensures !kind(raw[i]).NotDigit?
    {
      if i < |NatText(id)| {
        assert raw[i] == NatText(id)[i] && kind(NatText(id)[i]).DecimalDigit?;
      }
    }
    assert kind(raw[|NatText(id)|]).OtherDigit?;
    assert kind([SUPERSCRIPT_TWO][0]).OtherDigit?;
  }

  /** A missing or non-numeric cursor lists the session from its first event. */
  lemma NoCursorStartsOver(raw: Option<string>, kind: char -> DigitKind, log: Log, stream: Stream)
    requires raw.None? || !IsDigitString(raw.value, kind)
    ensures ParseCursor(raw, kind) == Ok(None)
    ensures forall e :: e in Newer(log, stream, Position(ParseCursor(raw, kind).value)) <==>
      e in log && e.workspaceId == stream.workspaceId && e.sessionId == stream.sessionId
  {
    forall e
      ensures e in Newer(log, stream, Position(None)) <==> e in log && Belongs(e, stream)
    {
      if e in log && Belongs(e, stream) {
        NewerComplete(log, stream, Position(None), e);
      } else if e in Newer(log, stream, Position(None)) {
        var i: nat :| i < |Newer(log, stream, Position(None))| && Newer(log, stream, Position(None))[i] == e;
        NewerMember(log, stream, Position(None), i);
      }
    }
  }

  // ----- one connection -----

  /** Accepts messages until the peer is gone. */
  class WebSocket {
    var outbox: seq<Event>
    var sendsLeft: nat

    constructor (sends: nat)
      ensures outbox == [] && sendsLeft == sends
    {
      outbox, sendsLeft := [], sends;
    }

    /** `sent` is false where the library raises WebSocketDisconnect. */
    method SendJson(e: Event) returns (sent: bool)
      modifies this
      ensures sent == (old(sendsLeft) > 0)
      ensures outbox == if sent then old(outbox) + [e] else old(outbox)
      ensures sendsLeft == if sent then old(sendsLeft) - 1 else 0
    {
      sent := sendsLeft > 0;
      if sent {
        outbox, sendsLeft := outbox + [e], sendsLeft - 1;
      }
    }
  }

  function CursorAfter(events: seq<Event>, cursor: Option<nat>): Option<nat>
  {
    if events == [] then cursor else Some(events[|events| - 1].id)
  }

  function Min(a: nat, b: nat): nat { if a <= b then a else b }

  /** `_send_events`, with the exception of a lost peer as a flag. */
  method SendEvents(socket: WebSocket, events: seq<Event>, lastEventId: Option<nat>)
    returns (newestEventId: Option<nat>, connected: bool)
    modifies socket
    ensures connected == (|events| <= old(socket.sendsLeft))
    ensures connected ==> newestEventId == CursorAfter(events, lastEventId)
    ensures socket.outbox == old(socket.outbox) + events[..Min(old(socket.sendsLeft), |events|)]
    ensures connected ==> socket.sendsLeft == old(socket.sendsLeft) - |events|
  {
    newestEventId := lastEventId;
    for i := 0 to |events|
      invariant i <= old(socket.sendsLeft)
      invariant socket.sendsLeft == old(socket.sendsLeft) - i
      invariant socket.outbox == old(socket.outbox) + events[..i]
      invariant newestEventId == CursorAfter(events[..i], lastEventId)
    {
      var sent := socket.SendJson(events[i]);
      if !sent {
        return newestEventId, false;
      }
      newestEventId := Some(events[i].id);
      assert events[..i + 1] == events[..i] + [events[i]];
    }
    assert events[..|events|] == events;
    connected := true;
  }

  /** What a connection has done: where it started, where it stands, what it has sent. */
  datatype Conn = Conn(start: Option<nat>, cursor: Option<nat>, sent: seq<Event>, open: bool)

  function Opened(cursor: Option<nat>): Conn { Conn(cursor, cursor, [], true) }

  /** One poll whose peer takes at most `sends` more messages. */
  function PollStep(conn: Conn, log: Log, stream: Stream, sends: nat): Conn
  {
    if !conn.open then conn
    else
      var batch := ListEvents(log, stream, conn.cursor, PAGE);
      if |batch| <= sends then Conn(conn.start, CursorAfter(batch, conn.cursor), conn.sent + batch, true)
      else Conn(conn.start, conn.cursor, conn.sent + batch[..sends], false)
  }

  class Connection {
    const stream: Stream
    const start: Option<nat>
    const socket: WebSocket
    var lastEventId: Option<nat>
    var open: bool

    function View(): Conn
      reads this, socket
    {
      Conn(start, lastEventId, socket.outbox, open)
    }

    /** The accepted connection, before its replay. */
    constructor (stream: Stream, cursor: Option<nat>, sends: nat)
      ensures View() == Opened(cursor) && this.stream == stream && socket.sendsLeft == sends && fresh(socket)
    {
      this.stream, this.start, this.lastEventId, this.open := stream, cursor, cursor, true;
      var s := new WebSocket(sends);
      this.socket := s;
    }

    /** `_replay_events` and `_send_new_events`: list what is newer than the cursor and send it. */
    method Poll(log: Log)
      requires open
      modifies this`lastEventId, this`open, socket
      ensures View() == PollStep(old(View()), log, stream, old(socket.sendsLeft))
    {
      var events := ListEvents(log, stream, lastEventId, PAGE);
      var newest, connected := SendEvents(socket, events, lastEventId);
      if connected {
        lastEventId := newest;
      } else {
        open := false;
      }
    }
  }

  // ----- runs with reconnects, ids becoming visible in increasing order -----

  /** The log, the current connection, and what earlier connections got across. */
  datatype World = World(log: Log, conn: Conn, received: seq<Event>)

  datatype Action =
    | Append(e: Event)          // a transaction commits an event
    | Poll(sends: nat)          // the connection polls; the peer takes at most so many
    | Reconnect(arrived: nat)   // of the messages sent, this many reached the client

  function AllSent(w: World): seq<Event> { w.received + w.conn.sent }

  ghost predicate Enabled(w: World, a: Action)
  {
    match a
    case Append(e) => forall i :: 0 <= i < |w.log| ==> w.log[i].id < e.id
    case Poll(_) => true
    case Reconnect(arrived) => arrived <= |w.conn.sent|
  }

  /** Reconnecting passes the last id received, or the first cursor while there is none. */
  function Apply(w: World, stream: Stream, initial: Option<nat>, a: Action): World
    requires Enabled(w, a)
  {
    match a
    case Append(e) => w.(log := Commit(w.log, e))
    case Poll(sends) => w.(conn := PollStep(w.conn, w.log, stream, sends))
    case Reconnect(arrived) =>
      var received := w.received + w.conn.sent[..arrived];
      World(w.log, Opened(CursorAfter(received, initial)), received)
  }

  /** `worlds` is a run: each world follows from the one before by one enabled action. */
  ghost predicate IsRun(worlds: seq<World>, actions: seq<Action>, stream: Stream, initial: Option<nat>)
  {
    && |worlds| == |actions| + 1
    && worlds[0].conn == Opened(initial) && worlds[0].received == [] && Ordered(worlds[0].log)
    && forall i :: 0 <= i < |actions| ==>
         Enabled(worlds[i], actions[i]) && worlds[i + 1] == Apply(worlds[i], stream, initial, actions[i])
  }

  /** A position is the lower end itself or the id of a visible event. */
  ghost predicate Reached(log: Log, lo: int, hi: int)
  {
    hi == lo || (lo < hi && exists i :: 0 <= i < |log| && log[i].id == hi)
  }

  ghost predicate Exact(log: Log, stream: Stream, lo: int, events: seq<Event>)
  {
    && Reached(log, lo, LastId(events, lo))
    && events == Between(log, stream, lo, LastId(events, lo))
  }

  ghost predicate Inv(w: World, stream: Stream, initial: Option<nat>)
  {
    var lo := Position(initial);
    && Ordered(w.log)
    && Exact(w.log, stream, lo, w.received)
    && Position(w.conn.start) == LastId(w.received, lo)
    && Exact(w.log, stream, Position(w.conn.start), w.conn.sent)
    && (w.conn.open ==> Position(w.conn.cursor) == LastId(w.conn.sent, Position(w.conn.start)))
  }

  lemma AppendKeepsExact(log: Log, stream: Stream, lo: int, events: seq<Event>, e: Event)
    requires Ordered(log) && Exact(log, stream, lo, events)
    requires forall i :: 0 <= i < |log| ==> log[i].id < e.id
    ensures Commit(log, e) == log + [e]
    ensures Ordered(log + [e]) && Exact(log + [e], stream, lo, events)
  {
    var hi := LastId(events, lo);
    assert !(Belongs(e, stream) && lo < e.id <= hi);
    CommitOutside(log, e, stream, lo, hi);
    assert forall i :: 0 <= i < |log| ==> (log + [e])[i] == log[i];
  }

  /** Sending a prefix of what is newer extends an exact stream exactly. */
  lemma PrefixKeepsExact(log: Log, stream: Stream, lo: int, events: seq<Event>, k: nat)
    requires Ordered(log) && Exact(log, stream, lo, events)
    requires k <= |Newer(log, stream, LastId(events, lo))|
    ensures Exact(log, stream, lo, events + Newer(log, stream, LastId(events, lo))[..k])
  {
    var mid := LastId(events, lo);
    var page := Newer(log, stream, mid)[..k];
    PrefixIsBetween(log, stream, mid, k);
    if k > 0 {
      NewerMember(log, stream, mid, k - 1);
      assert LastId(events + page, lo) == page[k - 1].id;
    } else {
      assert events + page == events;
    }
    BetweenJoins(log, stream, lo, mid, LastId(events + page, lo));
  }

  lemma PollKeepsExact(w: World, stream: Stream, initial: Option<nat>, sends: nat)
    requires Inv(w, stream, initial)
    ensures Inv(Apply(w, stream, initial, Poll(sends)), stream, initial)
  {
    if w.conn.open {
      var start := Position(w.conn.start);
      var newer := Newer(w.log, stream, Position(w.conn.cursor));
      var batch := ListEvents(w.log, stream, w.conn.cursor, PAGE);
      var k := Min(sends, |batch|);
      assert batch == newer[..|batch|];
      assert batch[..k] == newer[..k];
      PrefixKeepsExact(w.log, stream, start, w.conn.sent, k);
    }
  }

  /** Any prefix of an exact stream is exact, and two exact streams end to end are one. */
  lemma PrefixOfExact(log: Log, stream: Stream, lo: int, events: seq<Event>, k: nat)
    requires Ordered(log) && Exact(log, stream, lo, events) && k <= |events|
    ensures Exact(log, stream, lo, events[..k])
  {
    var hi := LastId(events, lo);
    if k == 0 {
      BetweenNothing(log, stream, lo, lo);
    } else {
      BetweenMember(log, stream, lo, hi, k - 1);
      BetweenTakesTo(log, stream, lo, events[k - 1].id, hi, k);
    }
  }

  lemma BetweenTakesTo(log: Log, stream: Stream, lo: int, mid: int, hi: int, k: nat)
    requires Ordered(log) && 0 < k <= |Between(log, stream, lo, hi)|
    requires mid == Between(log, stream, lo, hi)[k - 1].id
    ensures Between(log, stream, lo, hi)[..k] == Between(log, stream, lo, mid)
  {
    BetweenMember(log, stream, lo, hi, k - 1);
    BetweenJoins(log, stream, lo, mid, hi);
    BetweenOrdered(log, stream, lo, hi);
    BetweenBounds(log, stream, lo, mid);
    BetweenBounds(log, stream, mid, hi);
    CutBelow(Between(log, stream, lo, mid), Between(log, stream, mid, hi), Between(log, stream, lo, hi), k);
  }

  lemma BetweenBounds(log: Log, stream: Stream, lo: int, hi: int)
    ensures forall i {:trigger Between(log, stream, lo, hi)[i]} ::
      0 <= i < |Between(log, stream, lo, hi)| ==> lo < Between(log, stream, lo, hi)[i].id <= hi
  {
    forall i: nat | i < |Between(log, stream, lo, hi)|
      ensures lo < Between(log, stream, lo, hi)[i].id <= hi
    {
      BetweenMember(log, stream, lo, hi, i);
    }
  }

  lemma ConcatAt(left: seq<Event>, right: seq<Event>, i: nat)
    requires i < |left + right|
    ensures (left + right)[i] == if i < |left| then left[i] else right[i - |left|]
  {
  }

  /** An ordered list cut by id at its `k`-th entry has `k` entries below the cut. */
  lemma CutBelow(left: seq<Event>, right: seq<Event>, all: seq<Event>, k: nat)
    requires all == left + right && Ordered(all) && 0 < k <= |all|
    requires forall i :: 0 <= i < |left| ==> left[i].id <= all[k - 1].id
    requires forall i :: 0 <= i < |right| ==> right[i].id > all[k - 1].id
    ensures all[..k] == left
  {
    ConcatAt(left, right, k - 1);
    if k < |all| {
      ConcatAt(left, right, k);
    }
    assert |left| == k;
  }

  lemma ExactJoins(log: Log, stream: Stream, lo: int, a: seq<Event>, b: seq<Event>)
    requires Ordered(log) && Exact(log, stream, lo, a) && Exact(log, stream, LastId(a, lo), b)
    ensures Exact(log, stream, lo, a + b)
    ensures LastId(a + b, lo) == LastId(b, LastId(a, lo))
  {
    var mid := LastId(a, lo);
    if b == [] {
      assert a + b == a;
    }
    BetweenJoins(log, stream, lo, mid, LastId(a + b, lo));
  }

  lemma StepKeepsInv(w: World, stream: Stream, initial: Option<nat>, a: Action)
    requires Inv(w, stream, initial) && Enabled(w, a)
    ensures Inv(Apply(w, stream, initial, a), stream, initial)
  {
    match a
    case Append(e) =>
      AppendKeepsExact(w.log, stream, Position(initial), w.received, e);
      AppendKeepsExact(w.log, stream, Position(w.conn.start), w.conn.sent, e);
    case Poll(sends) =>
      PollKeepsExact(w, stream, initial, sends);
    case Reconnect(arrived) =>
      PrefixOfExact(w.log, stream, Position(w.conn.start), w.conn.sent, arrived);
      ExactJoins(w.log, stream, Position(initial), w.received, w.conn.sent[..arrived]);
      var received := w.received + w.conn.sent[..arrived];
      BetweenNothing(w.log, stream, LastId(received, Position(initial)), LastId(received, Position(initial)));
  }

  lemma {:induction false} RunKeepsInv(worlds: seq<World>, actions: seq<Action>, stream: Stream, initial: Option<nat>, n: nat)
    requires IsRun(worlds, actions, stream, initial) && n < |worlds|
    ensures Inv(worlds[n], stream, initial)
  {
    if n == 0 {
      BetweenNothing(worlds[0].log, stream, Position(initial), Position(initial));
    } else {
      RunKeepsInv(worlds, actions, stream, initial, n - 1);
      StepKeepsInv(worlds[n - 1], stream, initial, actions[n - 1]);
    }
  }

  /** Strictly increasing ids, nothing foreign, nothing missing up to the last id. */
  ghost predicate GapFree(log: Log, stream: Stream, lo: int, events: seq<Event>)
  {
    && Ordered(events)
    && (forall e :: e in events <==>
          && e in log && e.workspaceId == stream.workspaceId && e.sessionId == stream.sessionId
          && lo < e.id <= LastId(events, lo))
  }

  lemma ExactIsGapFree(log: Log, stream: Stream, lo: int, events: seq<Event>)
    requires Ordered(log) && Exact(log, stream, lo, events)
    ensures GapFree(log, stream, lo, events)
  {
    var hi := LastId(events, lo);
    BetweenOrdered(log, stream, lo, hi);
    BetweenHoldsItsRange(log, stream, lo, hi);
  }

  /** On every connection of every run, the events sent are a gap-free stretch from its start. */
  lemma ConnectionIsGapFree(worlds: seq<World>, actions: seq<Action>, stream: Stream, initial: Option<nat>, n: nat)
    requires IsRun(worlds, actions, stream, initial) && n < |worlds|
    ensures var w := worlds[n];
      && GapFree(w.log, stream, Position(w.conn.start), w.conn.sent)
      && (forall e :: e in w.conn.sent <==>
            && e in w.log && e.workspaceId == stream.workspaceId && e.sessionId == stream.sessionId
            && (w.conn.start.Some? ==> w.conn.start.value < e.id)
            && w.conn.sent != [] && e.id <= w.conn.sent[|w.conn.sent| - 1].id)
      && (w.conn.open ==> LastId(w.conn.sent, Position(w.conn.start)) == Position(w.conn.cursor))
  {
    RunKeepsInv(worlds, actions, stream, initial, n);
    ExactIsGapFree(worlds[n].log, stream, Position(worlds[n].conn.start), worlds[n].conn.sent);
  }

  /**
   Across any number of broken connections, what the client received, followed by what is
   under way, is one gap-free and duplicate-free stretch of the session's log.
   */
  lemma ReconnectsAreSeamless(worlds: seq<World>, actions: seq<Action>, stream: Stream, initial: Option<nat>, n: nat)
    requires IsRun(worlds, actions, stream, initial) && n < |worlds|
    ensures GapFree(worlds[n].log, stream, Position(initial), worlds[n].received)
    ensures GapFree(worlds[n].log, stream, Position(initial), AllSent(worlds[n]))
  {
    var w := worlds[n];
    RunKeepsInv(worlds, actions, stream, initial, n);
    ExactIsGapFree(w.log, stream, Position(initial), w.received);
    ExactJoins(w.log, stream, Position(initial), w.received, w.conn.sent);
    ExactIsGapFree(w.log, stream, Position(initial), AllSent(w));
  }

  lemma PollSendsAtMostAPage(conn: Conn, log: Log, stream: Stream, sends: nat)
    ensures conn.sent <= PollStep(conn, log, stream, sends).sent
    ensures |PollStep(conn, log, stream, sends).sent| <= |conn.sent| + 200
  {
  }

  // ----- draining a backlog -----

  function Backlog(conn: Conn, log: Log, stream: Stream): nat
  {
    |Newer(log, stream, Position(conn.cursor))|
  }

  /** `n` polls with no new commits and a peer that stays. */
  function Polls(conn: Conn, log: Log, stream: Stream, n: nat): Conn
  {
    if n == 0 then conn else PollStep(Polls(conn, log, stream, n - 1), log, stream, PAGE)
  }

  lemma PollDrainsAPage(conn: Conn, log: Log, stream: Stream)
    requires Ordered(log) && conn.open
    ensures var next := PollStep(conn, log, stream, PAGE);
      && next.open
      && Backlog(next, log, stream) == Backlog(conn, log, stream) - Min(PAGE, Backlog(conn, log, stream))
      && |next.sent| == |conn.sent| + Min(PAGE, Backlog(conn, log, stream))
  {
    var newer := Newer(log, stream, Position(conn.cursor));
    var batch := ListEvents(log, stream, conn.cursor, PAGE);
    assert batch == newer[..|batch|];
    SuffixIsNewer(log, stream, Position(conn.cursor), |batch|);
  }

  /** After `n` polls, `200 * n` events of the backlog are gone, or all of it. */
  lemma {:induction false} PollsDrain(conn: Conn, log: Log, stream: Stream, n: nat)
    requires Ordered(log) && conn.open
    ensures var b := Backlog(conn, log, stream);
      && Polls(conn, log, stream, n).open
      && Backlog(Polls(conn, log, stream, n), log, stream) == b - Min(b, 200 * n)
      && |Polls(conn, log, stream, n).sent| == |conn.sent| + Min(b, 200 * n)
  {
    if n == 0 {
    } else {
      PollsDrain(conn, log, stream, n - 1);
      PollDrainsAPage(Polls(conn, log, stream, n - 1), log, stream);
    }
  }

  /** A backlog is fully delivered after exactly the rounded-up number of pages. */
  lemma DrainedExactlyWhen(conn: Conn, log: Log, stream: Stream, n: nat)
    requires Ordered(log) && conn.open
    ensures Backlog(Polls(conn, log, stream, n), log, stream) == 0
      <==> n >= (Backlog(conn, log, stream) + 199) / 200
  {
    PollsDrain(conn, log, stream, n);
  }

  // ----- one connection while ids become visible in any order -----

  /** `late` collects the ids that were committed at or below the cursor. */
  datatype Watch = Watch(log: Log, conn: Conn, late: set<nat>)

  datatype WatchAction = CommitAny(e: Event) | PollAll

  predicate IsLate(w: Watch, stream: Stream, e: Event)
  {
    Belongs(e, stream) && Position(w.conn.start) < e.id <= Position(w.conn.cursor)
  }

  ghost predicate WatchEnabled(w: Watch, a: WatchAction)
  {
    a.CommitAny? ==> FreshId(w.log, a.e)
  }

  function WatchApply(w: Watch, stream: Stream, a: WatchAction): Watch
  {
    match a
    case CommitAny(e) => Watch(Commit(w.log, e), w.conn, if IsLate(w, stream, e) then w.late + {e.id} else w.late)
    case PollAll => w.(conn := PollStep(w.conn, w.log, stream, PAGE))
  }

  ghost predicate IsWatch(ws: seq<Watch>, actions: seq<WatchAction>, stream: Stream, start: Option<nat>)
  {
    && |ws| == |actions| + 1
    && ws[0].conn == Opened(start) && ws[0].late == {} && Ordered(ws[0].log)
    && forall i :: 0 <= i < |actions| ==>
         WatchEnabled(ws[i], actions[i]) && ws[i + 1] == WatchApply(ws[i], stream, actions[i])
  }

  function Without(events: seq<Event>, ids: set<nat>): seq<Event>
  {
    if events == [] then []
    else
      var e := events[|events| - 1];
      Without(events[..|events| - 1], ids) + if e.id in ids then [] else [e]
  }

  lemma {:induction false} WithoutMembers(events: seq<Event>, ids: set<nat>, e: Event)
    ensures e in Without(events, ids) <==> e in events && e.id !in ids
  {
    if events == [] {
    } else {
      WithoutMembers(events[..|events| - 1], ids, e);
      assert events == events[..|events| - 1] + [events[|events| - 1]];
    }
  }

  lemma {:induction false} WithoutConcat(a: seq<Event>, b: seq<Event>, ids: set<nat>)
    ensures Without(a + b, ids) == Without(a, ids) + Without(b, ids)
  {
    if b == [] {
      assert a + b == a;
    } else {
      assert (a + b)[..|a + b| - 1] == a + b[..|b| - 1];
      WithoutConcat(a, b[..|b| - 1], ids);
    }
  }

  lemma {:induction false} WithoutOthers(events: seq<Event>, ids: set<nat>, more: set<nat>)
    requires forall i :: 0 <= i < |events| ==> events[i].id !in more
    ensures Without(events, ids + more) == Without(events, ids)
  {
    if events == [] {
    } else {
      WithoutOthers(events[..|events| - 1], ids, more);
    }
  }

  lemma {:induction false} WithoutAbsent(events: seq<Event>, ids: set<nat>)
    requires forall i :: 0 <= i < |events| ==> events[i].id !in ids
    ensures Without(events, ids) == events
  {
    if events == [] {
    } else {
      WithoutAbsent(events[..|events| - 1], ids);
    }
  }

  ghost predicate WatchInv(w: Watch, stream: Stream)
  {
    var lo, hi := Position(w.conn.start), Position(w.conn.cursor);
    && Ordered(w.log) && w.conn.open && lo <= hi
    && w.conn.sent == Without(Between(w.log, stream, lo, hi), w.late)
    && (forall id :: id in w.late ==> lo < id <= hi && IsLogged(w.log, stream, id))
  }

  ghost predicate IsLogged(log: Log, stream: Stream, id: nat)
  {
    exists e :: e in log && Belongs(e, stream) && e.id == id
  }

  lemma LateCommit(log: Log, e: Event, stream: Stream, lo: int, hi: int, late: set<nat>)
    requires Ordered(log) && FreshId(log, e) && Belongs(e, stream) && lo < e.id <= hi
    ensures Without(Between(Commit(log, e), stream, lo, hi), late + {e.id})
      == Without(Between(log, stream, lo, hi), late)
  {
    var a, b := CommitSplits(log, e);
    var x, y := Between(a, stream, lo, hi), Between(b, stream, lo, hi);
    assert Between(log, stream, lo, hi) == x + y by { BetweenConcat(a, b, stream, lo, hi); }
    assert Between(Commit(log, e), stream, lo, hi) == x + [e] + y by { BetweenInsert(a, e, b, stream, lo, hi); }
    WithoutConcat(x, y, late);
    FreshInParts(a, b, e);
    FreshInRange(a, e, stream, lo, hi);
    FreshInRange(b, e, stream, lo, hi);
    WithoutInserted(x, e, y, late);
  }

  lemma FreshInParts(a: Log, b: Log, e: Event)
    requires FreshId(a + b, e)
    ensures FreshId(a, e) && FreshId(b, e)
  {
    assert forall i :: 0 <= i < |a| ==> a[i] == (a + b)[i];
    assert forall i :: 0 <= i < |b| ==> b[i] == (a + b)[|a| + i];
  }

  lemma FreshInRange(log: Log, e: Event, stream: Stream, lo: int, hi: int)
    requires FreshId(log, e)
    ensures FreshId(Between(log, stream, lo, hi), e)
  {
    forall i: nat | i < |Between(log, stream, lo, hi)|
      ensures Between(log, stream, lo, hi)[i].id != e.id
    {
      BetweenMember(log, stream, lo, hi, i);
    }
  }

  lemma WithoutInserted(x: seq<Event>, e: Event, y: seq<Event>, late: set<nat>)
    requires FreshId(x, e) && FreshId(y, e)
    ensures Without(x + [e] + y, late + {e.id}) == Without(x, late) + Without(y, late)
  {
    var ids := late + {e.id};
    assert Without(x + [e] + y, ids) == Without(x + [e], ids) + Without(y, ids) by { WithoutConcat(x + [e], y, ids); }
    assert Without(x + [e], ids) == Without(x, ids) by { assert (x + [e])[..|x|] == x; }
    assert Without(x, ids) == Without(x, late) by { WithoutOthers(x, late, {e.id}); }
    assert Without(y, ids) == Without(y, late) by { WithoutOthers(y, late, {e.id}); }
  }

  lemma CommitKeepsMembers(log: Log, e: Event)
    ensures forall x :: x in Commit(log, e) <==> x in log || x == e
  {
    var a, b := CommitSplits(log, e);
  }

  lemma CommitKeepsLogged(log: Log, stream: Stream, e: Event, id: nat)
    requires IsLogged(log, stream, id) || (Belongs(e, stream) && e.id == id)
    ensures IsLogged(Commit(log, e), stream, id)
  {
    CommitKeepsMembers(log, e);
    if IsLogged(log, stream, id) {
      var x :| x in log && Belongs(x, stream) && x.id == id;
      assert x in Commit(log, e);
    } else {
      assert e in Commit(log, e);
    }
  }

  lemma WatchCommit(w: Watch, stream: Stream, e: Event)
    requires WatchInv(w, stream) && FreshId(w.log, e)
    ensures WatchInv(WatchApply(w, stream, CommitAny(e)), stream)
  {
    var lo, hi := Position(w.conn.start), Position(w.conn.cursor);
    var next := WatchApply(w, stream, CommitAny(e));
    CommitKeepsOrder(w.log, e);
    forall id | id in next.late
      ensures IsLogged(next.log, stream, id)
    {
      CommitKeepsLogged(w.log, stream, e, id);
    }
    if IsLate(w, stream, e) {
      LateCommit(w.log, e, stream, lo, hi, w.late);
    } else {
      CommitOutside(w.log, e, stream, lo, hi);
    }
  }

  lemma WatchPoll(w: Watch, stream: Stream)
    requires WatchInv(w, stream)
    ensures WatchInv(WatchApply(w, stream, PollAll), stream)
  {
    var lo, mid := Position(w.conn.start), Position(w.conn.cursor);
    var newer := Newer(w.log, stream, mid);
    var batch := ListEvents(w.log, stream, w.conn.cursor, PAGE);
    var hi := LastId(batch, mid);
    assert batch == newer[..|batch|];
    PrefixIsBetween(w.log, stream, mid, |batch|);
    if batch != [] {
      NewerMember(w.log, stream, mid, |batch| - 1);
    }
    BetweenJoins(w.log, stream, lo, mid, hi);
    WithoutConcat(Between(w.log, stream, lo, mid), batch, w.late);
    forall i: nat | i < |batch|
      ensures batch[i].id !in w.late
    {
      NewerMember(w.log, stream, mid, i);
    }
    WithoutAbsent(batch, w.late);
  }

  lemma {:induction false} WatchKeepsInv(ws: seq<Watch>, actions: seq<WatchAction>, stream: Stream, start: Option<nat>, n: nat)
    requires IsWatch(ws, actions, stream, start) && n < |ws|
    ensures WatchInv(ws[n], stream)
  {
    if n == 0 {
      BetweenNothing(ws[0].log, stream, Position(start), Position(start));
    } else {
      WatchKeepsInv(ws, actions, stream, start, n - 1);
      match actions[n - 1]
      case CommitAny(e) => WatchCommit(ws[n - 1], stream, e);
      case PollAll => WatchPoll(ws[n - 1], stream);
    }
  }

  /**
   With ids becoming visible in any order, the connection has sent every event of its
   range exactly when no event of the session was committed at or below the cursor, and
   what it misses is precisely those events.
   */
  lemma CompleteExactlyWithoutLateCommits(
    ws: seq<Watch>, actions: seq<WatchAction>, stream: Stream, start: Option<nat>, n: nat)
    requires IsWatch(ws, actions, stream, start) && n < |ws|
    ensures var w := ws[n];
      var range := Between(w.log, stream, Position(w.conn.start), Position(w.conn.cursor));
      && (w.conn.sent == range <==> w.late == {})
      && (forall e :: e in range && e !in w.conn.sent <==> e in range && e.id in w.late)
  {
    var w := ws[n];
    var lo, hi := Position(w.conn.start), Position(w.conn.cursor);
    var range := Between(w.log, stream, lo, hi);
    WatchKeepsInv(ws, actions, stream, start, n);
    forall e
      ensures e in w.conn.sent <==> e in range && e.id !in w.late
    {
      WithoutMembers(range, w.late, e);
    }
    if w.late == {} {
      WithoutAbsent(range, {});
    } else {
      var id :| id in w.late;
      var e :| e in w.log && Belongs(e, stream) && e.id == id;
      BetweenComplete(w.log, stream, lo, hi, e);
      assert e !in w.conn.sent;
    }
  }
}
