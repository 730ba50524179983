/**
 The visible rows of the event table and the page query over them.

 Ids are a primary key, so a log is kept in increasing id order; a transaction may still
 commit an id below ids that are already visible, and `Commit` puts it in its place.
 */
module EventLog {
  import opened Options

  datatype Event = Event(id: nat, workspaceId: nat, sessionId: nat, eventType: string, payload: string)

  /** One session of one workspace. */
  datatype Stream = Stream(workspaceId: nat, sessionId: nat)

  type Log = seq<Event>

  const PAGE: nat := 200

  predicate Ordered(log: Log)
  {
    forall i, j :: 0 <= i < j < |log| ==> log[i].id < log[j].id
  }

  predicate Belongs(e: Event, stream: Stream)
  {
    e.workspaceId == stream.workspaceId && e.sessionId == stream.sessionId
  }

  /** An absent cursor lies before every id. */
  function Position(cursor: Option<nat>): int { if cursor.Some? then cursor.value else -1 }

  /** The stream's events with an id above `lo`. */
  function Newer(log: Log, stream: Stream, lo: int): seq<Event>
  {
    if log == [] then []
    else
      var e := log[|log| - 1];
      Newer(log[..|log| - 1], stream, lo) + if Belongs(e, stream) && e.id > lo then [e] else []
  }

  /** The stream's events with an id above `lo` and not above `hi`. */
  function Between(log: Log, stream: Stream, lo: int, hi: int): seq<Event>
  {
    if log == [] then []
    else
      var e := log[|log| - 1];
      Between(log[..|log| - 1], stream, lo, hi) + if Belongs(e, stream) && lo < e.id <= hi then [e] else []
  }

  /** `list_events`: filter, order by id, limit. */
  function ListEvents(log: Log, stream: Stream, after: Option<nat>, limit: nat): (events: seq<Event>)
    ensures |events| <= limit
  {
    var newer := Newer(log, stream, Position(after));
    if |newer| <= limit then newer else newer[..limit]
  }

  /** The id of the last event, or the given position when there is none. */
  function LastId(events: seq<Event>, otherwise: int): int
  {
    if events == [] then otherwise else events[|events| - 1].id
  }

  predicate FreshId(log: Log, e: Event) { forall i :: 0 <= i < |log| ==> log[i].id != e.id }

  /** The row becomes visible. */
  function Commit(log: Log, e: Event): Log
  {
    if log != [] && log[|log| - 1].id > e.id then Commit(log[..|log| - 1], e) + [log[|log| - 1]]
    else log + [e]
  }

  // ----- order -----

  lemma {:induction false} NewerMember(log: Log, stream: Stream, lo: int, i: nat)
    requires i < |Newer(log, stream, lo)|
    ensures var e := Newer(log, stream, lo)[i];
      e in log && Belongs(e, stream) && e.id > lo
  {
    if i < |Newer(log[..|log| - 1], stream, lo)| {
      NewerMember(log[..|log| - 1], stream, lo, i);
    }
  }

  lemma {:induction false} BetweenMember(log: Log, stream: Stream, lo: int, hi: int, i: nat)
    requires i < |Between(log, stream, lo, hi)|
    ensures var e := Between(log, stream, lo, hi)[i];
      e in log && Belongs(e, stream) && lo < e.id <= hi
  {
    if i < |Between(log[..|log| - 1], stream, lo, hi)| {
      BetweenMember(log[..|log| - 1], stream, lo, hi, i);
    }
  }

  lemma {:induction false} BetweenComplete(log: Log, stream: Stream, lo: int, hi: int, e: Event)
    requires e in log && Belongs(e, stream) && lo < e.id <= hi
    ensures e in Between(log, stream, lo, hi)
  {
    if e != log[|log| - 1] {
      BetweenComplete(log[..|log| - 1], stream, lo, hi, e);
    }
  }

  lemma {:induction false} BetweenOrdered(log: Log, stream: Stream, lo: int, hi: int)
    requires Ordered(log)
    ensures Ordered(Between(log, stream, lo, hi))
  {
    if log == [] {
    } else {
      var init := log[..|log| - 1];
      BetweenOrdered(init, stream, lo, hi);
      var found := Between(init, stream, lo, hi);
      forall i: nat | i < |found|
        ensures found[i].id < log[|log| - 1].id
      {
        BetweenMember(init, stream, lo, hi, i);
      }
    }
  }

  lemma {:induction false} NewerIsBetween(log: Log, stream: Stream, lo: int, hi: int)
    requires forall i :: 0 <= i < |log| ==> log[i].id <= hi
    ensures Newer(log, stream, lo) == Between(log, stream, lo, hi)
  {
    if log == [] {
    } else {
      NewerIsBetween(log[..|log| - 1], stream, lo, hi);
    }
  }

  lemma {:induction false} BetweenNothing(log: Log, stream: Stream, lo: int, hi: int)
    requires hi <= lo
    ensures Between(log, stream, lo, hi) == []
  {
    if log == [] {
    } else {
      BetweenNothing(log[..|log| - 1], stream, lo, hi);
    }
  }

  lemma {:induction false} BetweenConcat(a: Log, b: Log, stream: Stream, lo: int, hi: int)
    ensures Between(a + b, stream, lo, hi) == Between(a, stream, lo, hi) + Between(b, stream, lo, hi)
  {
    if b == [] {
      assert a + b == a;
    } else {
      var c := a + b;
      assert c[..|c| - 1] == a + b[..|b| - 1];
      BetweenConcat(a, b[..|b| - 1], stream, lo, hi);
    }
  }

  /** Adjacent ranges join. */
  lemma {:induction false} BetweenJoins(log: Log, stream: Stream, lo: int, mid: int, hi: int)
    requires Ordered(log) && lo <= mid <= hi
    ensures Between(log, stream, lo, mid) + Between(log, stream, mid, hi) == Between(log, stream, lo, hi)
  {
    if log == [] {
    } else {
      var init := log[..|log| - 1];
      var e := log[|log| - 1];
      BetweenJoins(init, stream, lo, mid, hi);
      var left, right := Between(init, stream, lo, mid), Between(init, stream, mid, hi);
      if e.id <= mid {
        BetweenAbove(init, stream, mid, hi, e.id);
        assert Between(log, stream, mid, hi) == [];
        assert left + right == left;
      } else {
        assert Between(log, stream, lo, mid) == left;
        var rest := if Belongs(e, stream) && e.id <= hi then [e] else [];
        assert left + (right + rest) == (left + right) + rest;
      }
    }
  }

  lemma {:induction false} BetweenAbove(log: Log, stream: Stream, lo: int, hi: int, top: int)
    requires top <= lo
    requires forall i :: 0 <= i < |log| ==> log[i].id < top
    ensures Between(log, stream, lo, hi) == []
  {
    if log == [] {
    } else {
      BetweenAbove(log[..|log| - 1], stream, lo, hi, top);
    }
  }

  // ----- pages -----

  lemma NewerInit(log: Log, stream: Stream, lo: int, k: nat)
    requires log != [] && k <= |Newer(log[..|log| - 1], stream, lo)|
    ensures k <= |Newer(log, stream, lo)|
    ensures Newer(log, stream, lo)[..k] == Newer(log[..|log| - 1], stream, lo)[..k]
  {
  }

  lemma LastOfPageBelow(log: Log, stream: Stream, lo: int, k: nat)
    requires Ordered(log) && log != [] && 0 < k <= |Newer(log[..|log| - 1], stream, lo)|
    ensures lo < LastId(Newer(log[..|log| - 1], stream, lo)[..k], lo) < log[|log| - 1].id
  {
    NewerMember(log[..|log| - 1], stream, lo, k - 1);
  }

  /** Any prefix of the newer events is the range up to its last id. */
  lemma {:induction false} PrefixIsBetween(log: Log, stream: Stream, lo: int, k: nat)
    requires Ordered(log) && k <= |Newer(log, stream, lo)|
    ensures Newer(log, stream, lo)[..k] == Between(log, stream, lo, LastId(Newer(log, stream, lo)[..k], lo))
  {
    if k == 0 {
      BetweenNothing(log, stream, lo, lo);
    } else {
      var init := log[..|log| - 1];
      if k <= |Newer(init, stream, lo)| {
        PrefixIsBetween(init, stream, lo, k);
        NewerInit(log, stream, lo, k);
        LastOfPageBelow(log, stream, lo, k);
      } else {
        var e := log[|log| - 1];
        assert Newer(log, stream, lo)[..k] == Newer(init, stream, lo) + [e];
        NewerIsBetween(init, stream, lo, e.id);
      }
    }
  }

  lemma NewerStep(log: Log, stream: Stream, lo: int, hi: int)
    requires log != [] && lo < hi < log[|log| - 1].id
    ensures var e := log[|log| - 1];
      var rest := if Belongs(e, stream) then [e] else [];
      && Newer(log, stream, lo) == Newer(log[..|log| - 1], stream, lo) + rest
      && Newer(log, stream, hi) == Newer(log[..|log| - 1], stream, hi) + rest
  {
  }

  lemma DropOfConcat<T>(a: seq<T>, b: seq<T>, k: nat)
    requires k <= |a|
    ensures (a + b)[k..] == a[k..] + b
  {
  }

  /** What a page leaves behind is what is newer than its last id. */
  lemma {:induction false} SuffixIsNewer(log: Log, stream: Stream, lo: int, k: nat)
    requires Ordered(log) && k <= |Newer(log, stream, lo)|
    ensures Newer(log, stream, lo)[k..] == Newer(log, stream, LastId(Newer(log, stream, lo)[..k], lo))
  {
    if k == 0 {
    } else {
      var init := log[..|log| - 1];
      var e := log[|log| - 1];
      if k <= |Newer(init, stream, lo)| {
        var hi := LastId(Newer(init, stream, lo)[..k], lo);
        SuffixIsNewer(init, stream, lo, k);
        NewerInit(log, stream, lo, k);
        LastOfPageBelow(log, stream, lo, k);
        NewerStep(log, stream, lo, hi);
        DropOfConcat(Newer(init, stream, lo), if Belongs(e, stream) then [e] else [], k);
      } else {
        assert Newer(log, stream, lo)[..k] == Newer(init, stream, lo) + [e];
        assert Newer(log, stream, lo)[k..] == [];
        NewerAbove(init, stream, e.id);
      }
    }
  }

  /**
   A page holds, in increasing id order, exactly the rows of this session of this workspace
   behind the cursor and up to its own last id; a page that is not full leaves none behind.
   */
  lemma PageHoldsItsRange(log: Log, stream: Stream, after: Option<nat>, limit: nat)
    requires Ordered(log)
    ensures var page := ListEvents(log, stream, after, limit);
      && |page| <= limit && Ordered(page)
      && (forall e :: e in page <==>
            && e in log && e.workspaceId == stream.workspaceId && e.sessionId == stream.sessionId
            && (after.Some? ==> after.value < e.id)
            && page != [] && e.id <= page[|page| - 1].id)
      && (|page| < limit ==> forall e ::
            && e in log && e.workspaceId == stream.workspaceId && e.sessionId == stream.sessionId
            && (after.Some? ==> after.value < e.id)
            ==> e in page)
  {
    var lo := Position(after);
    var newer, page := Newer(log, stream, lo), ListEvents(log, stream, after, limit);
    var hi := LastId(page, lo);
    assert page == newer[..|page|];
    PrefixIsBetween(log, stream, lo, |page|);
    BetweenOrdered(log, stream, lo, hi);
    BetweenHoldsItsRange(log, stream, lo, hi);
    if |page| < limit {
      assert newer == page;
      forall e | e in log && Belongs(e, stream) && lo < e.id
        ensures e in page
      {
        NewerComplete(log, stream, lo, e);
      }
    }
  }

  /** The range between two positions, in the columns of its rows. */
  lemma BetweenHoldsItsRange(log: Log, stream: Stream, lo: int, hi: int)
    ensures forall e :: e in Between(log, stream, lo, hi) <==>
      && e in log && e.workspaceId == stream.workspaceId && e.sessionId == stream.sessionId
      && lo < e.id <= hi
  {
    forall e
      ensures e in Between(log, stream, lo, hi) <==> e in log && Belongs(e, stream) && lo < e.id <= hi
    {
      if e in Between(log, stream, lo, hi) {
        var i: nat :| i < |Between(log, stream, lo, hi)| && Between(log, stream, lo, hi)[i] == e;
        BetweenMember(log, stream, lo, hi, i);
      } else if e in log && Belongs(e, stream) && lo < e.id <= hi {
        BetweenComplete(log, stream, lo, hi, e);
      }
    }
  }

  lemma {:induction false} NewerComplete(log: Log, stream: Stream, lo: int, e: Event)
    requires e in log && Belongs(e, stream) && e.id > lo
    ensures e in Newer(log, stream, lo)
  {
    if e == log[|log| - 1] {
    } else {
      NewerComplete(log[..|log| - 1], stream, lo, e);
    }
  }

  lemma {:induction false} NewerAbove(log: Log, stream: Stream, top: int)
    requires forall i :: 0 <= i < |log| ==> log[i].id < top
    ensures Newer(log, stream, top) == []
  {
    if log == [] {
    } else {
      NewerAbove(log[..|log| - 1], stream, top);
    }
  }

  // ----- commits -----

  /** Where the new row lands. */
  lemma {:induction false} CommitSplits(log: Log, e: Event) returns (a: Log, b: Log)
    ensures log == a + b && Commit(log, e) == a + [e] + b
  {
    if log != [] && log[|log| - 1].id > e.id {
      var last := log[|log| - 1];
      a, b := CommitSplits(log[..|log| - 1], e);
      assert a + (b + [last]) == (a + b) + [last];
      assert a + [e] + (b + [last]) == (a + [e] + b) + [last];
      b := b + [last];
    } else {
      a, b := log, [];
      assert log + [e] == a + [e] + b;
    }
  }

  lemma {:induction false} CommitKeepsOrder(log: Log, e: Event)
    requires Ordered(log) && FreshId(log, e)
    ensures Ordered(Commit(log, e))
  {
    if log != [] && log[|log| - 1].id > e.id {
      var init := log[..|log| - 1];
      var a, b := CommitSplits(init, e);
      CommitKeepsOrder(init, e);
      forall i | 0 <= i < |a + [e] + b|
        ensures (a + [e] + b)[i].id < log[|log| - 1].id
      {
        assert (a + [e] + b)[i] == e || (a + [e] + b)[i] in a + b;
      }
    }
  }

  lemma BetweenOne(e: Event, stream: Stream, lo: int, hi: int)
    ensures Between([e], stream, lo, hi) == if Belongs(e, stream) && lo < e.id <= hi then [e] else []
  {
    assert [e][..0] == [];
  }

  lemma BetweenInsert(a: Log, e: Event, b: Log, stream: Stream, lo: int, hi: int)
    ensures Between(a + [e] + b, stream, lo, hi)
      == Between(a, stream, lo, hi)
         + (if Belongs(e, stream) && lo < e.id <= hi then [e] else [])
         + Between(b, stream, lo, hi)
  {
    BetweenConcat(a + [e], b, stream, lo, hi);
    BetweenConcat(a, [e], stream, lo, hi);
    BetweenOne(e, stream, lo, hi);
  }

  /** A row outside the range does not change the range. */
  lemma CommitOutside(log: Log, e: Event, stream: Stream, lo: int, hi: int)
    requires !(Belongs(e, stream) && lo < e.id <= hi)
    ensures Between(Commit(log, e), stream, lo, hi) == Between(log, stream, lo, hi)
  {
    var a, b := CommitSplits(log, e);
    BetweenInsert(a, e, b, stream, lo, hi);
    BetweenConcat(a, b, stream, lo, hi);
    assert Between(a, stream, lo, hi) + [] == Between(a, stream, lo, hi);
  }
}
