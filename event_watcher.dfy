/**
 * The deduplicating filter behind `Contracts.watchContract`. Every tick fetches
 * the contract's whole event history; each event passes only if its
 * (blockNumber, transactionIndex) comes strictly after the cursor in
 * lexicographic order, and a passing event moves the cursor onto itself.
 * Events are filtered one at a time, so an event is compared against the cursor
 * already advanced by the events before it.
 */
module EventWatcher {

  /** An event log as the filter sees it; `logIndex` and `name` stand for the rest of the
      log and are never looked at by the filter. */
  datatype Event = Event(blockNumber: int, transactionIndex: int, logIndex: int, name: string)

  /** The watcher's high-water mark (`lastBlock`, `lastTransactionIndex`). */
  datatype Cursor = Cursor(block: int, txIndex: int)

  /** The position of an event in the order the filter uses. */
  function Position(e: Event): Cursor
  {
    Cursor(e.blockNumber, e.transactionIndex)
  }

  /** Strict lexicographic order on (block, transaction index). */
  predicate Before(a: Cursor, b: Cursor)
  {
    a.block < b.block || (a.block == b.block && a.txIndex < b.txIndex)
  }

  predicate AtOrBefore(a: Cursor, b: Cursor)
  {
    a == b || Before(a, b)
  }

  /** The filter's test: `blockNumber > lastBlock || (blockNumber === lastBlock &&
      transactionIndex > lastTransactionIndex)`. */
  predicate Passes(e: Event, c: Cursor)
    ensures Passes(e, c) <==> Before(c, Position(e))
  {
    e.blockNumber > c.block || (e.blockNumber == c.block && e.transactionIndex > c.txIndex)
  }

  lemma BeforeTransitive(a: Cursor, b: Cursor, c: Cursor)
    requires Before(a, b) && Before(b, c)
    ensures Before(a, c)
  {
  }

  /** What filtering a stream of events leaves: the events emitted, in order, and the cursor. */
  datatype Scanned = Scanned(emitted: seq<Event>, cursor: Cursor)

  /** Filtering `events` one at a time starting from cursor `c`. Defined on the last event,
      which is how the stream sees it: the last event meets the cursor left by all the others. */
  function Scan(c: Cursor, events: seq<Event>): (r: Scanned)
    ensures |r.emitted| <= |events|
  {
    if |events| == 0 then Scanned([], c)
    else
      var r := Scan(c, events[..|events| - 1]);
      var e := events[|events| - 1];
      if Passes(e, r.cursor) then Scanned(r.emitted + [e], Position(e)) else r
  }

  /** Emitted positions strictly increase. */
  ghost predicate StrictlyIncreasing(s: seq<Event>)
  {
    forall i, j :: 0 <= i < j < |s| ==> Before(Position(s[i]), Position(s[j]))
  }

  /** `sub` is `s` with some events dropped, order kept. */
  ghost predicate Subsequence(sub: seq<Event>, s: seq<Event>)
    decreases |s|
  {
    if |sub| == 0 then true
    else if |s| == 0 then false
    else if sub[|sub| - 1] == s[|s| - 1] then Subsequence(sub[..|sub| - 1], s[..|s| - 1])
    else Subsequence(sub, s[..|s| - 1])
  }

  /** The invariant of the filter: the cursor sits on the last emitted event (or where it
      started), only moves forward, every emitted event came after the starting cursor,
      the emitted events strictly increase, and every event of the stream is at or before
      the final cursor. */
  lemma {:induction false} ScanInvariant(c: Cursor, events: seq<Event>)
    ensures var r := Scan(c, events);
      && (|r.emitted| == 0 ==> r.cursor == c)
      && (|r.emitted| > 0 ==> r.cursor == Position(r.emitted[|r.emitted| - 1]))
      && AtOrBefore(c, r.cursor)
      && (forall i :: 0 <= i < |r.emitted| ==> Before(c, Position(r.emitted[i])))
      && StrictlyIncreasing(r.emitted)
      && (forall i :: 0 <= i < |events| ==> AtOrBefore(Position(events[i]), r.cursor))
  {
    if |events| > 0 {
      var init := events[..|events| - 1];
      var e := events[|events| - 1];
      ScanInvariant(c, init);
      var r := Scan(c, init);
      if Passes(e, r.cursor) {
        var em := r.emitted + [e];
        forall i | 0 <= i < |em| ensures Before(c, Position(em[i])) {
          if i < |r.emitted| {
          } else if |r.emitted| == 0 {
          } else {
            BeforeTransitive(c, r.cursor, Position(e));
          }
        }
        forall i, j | 0 <= i < j < |em| ensures Before(Position(em[i]), Position(em[j])) {
          if j == |em| - 1 && i != |em| - 2 {
            BeforeTransitive(Position(em[i]), r.cursor, Position(e));
          }
        }
        forall i | 0 <= i < |events| ensures AtOrBefore(Position(events[i]), Position(e)) {
          if i < |init| {
            assert events[i] == init[i];
            if Position(init[i]) != r.cursor {
              BeforeTransitive(Position(init[i]), r.cursor, Position(e));
            }
          }
        }
        if |r.emitted| > 0 {
          BeforeTransitive(c, r.cursor, Position(e));
        }
      } else {
        forall i | 0 <= i < |events| ensures AtOrBefore(Position(events[i]), r.cursor) {
          if i < |init| {
            assert events[i] == init[i];
          }
        }
      }
    }
  }

  /** The emitted events are drawn from the stream, in stream order. */
  lemma {:induction false} ScanEmitsSubsequence(c: Cursor, events: seq<Event>)
    ensures Subsequence(Scan(c, events).emitted, events)
  {
    if |events| > 0 {
      var init := events[..|events| - 1];
      ScanEmitsSubsequence(c, init);
      var r := Scan(c, init);
      if Passes(events[|events| - 1], r.cursor) {
        var em := r.emitted + [events[|events| - 1]];
        assert em[..|em| - 1] == r.emitted;
      } else {
        SubsequenceDropLast(r.emitted, init, events[|events| - 1]);
      }
    }
  }

  lemma {:induction false} SubsequenceDropLast(sub: seq<Event>, s: seq<Event>, e: Event)
    requires Subsequence(sub, s)
    ensures Subsequence(sub, s + [e])
    decreases |s|, 1
  {
    var s' := s + [e];
    assert s'[..|s'| - 1] == s;
    if |sub| > 0 && sub[|sub| - 1] == e {
      // s' ends in e as well: match it, then sub minus its last is still inside s
      SubsequenceShrink(sub, s);
    }
  }

  /** Dropping the last element of `sub` keeps it a subsequence of `s`. */
  lemma {:induction false} SubsequenceShrink(sub: seq<Event>, s: seq<Event>)
    requires |sub| > 0 && Subsequence(sub, s)
    ensures Subsequence(sub[..|sub| - 1], s)
    decreases |s|, 0
  {
    var sub' := sub[..|sub| - 1];
    if |s| > 0 {
      if sub[|sub| - 1] == s[|s| - 1] {
        SubsequenceDropLast(sub', s[..|s| - 1], s[|s| - 1]);
        assert s[..|s| - 1] + [s[|s| - 1]] == s;
      } else {
        SubsequenceShrink(sub, s[..|s| - 1]);
        SubsequenceDropLast(sub', s[..|s| - 1], s[|s| - 1]);
        assert s[..|s| - 1] + [s[|s| - 1]] == s;
      }
    }
  }

  /** Nothing at or before the cursor is emitted, and the cursor does not move. */
  lemma {:induction false} ScanOfSeenEventsEmitsNothing(c: Cursor, events: seq<Event>)
    requires forall i :: 0 <= i < |events| ==> AtOrBefore(Position(events[i]), c)
    ensures Scan(c, events) == Scanned([], c)
  {
    if |events| > 0 {
      var init := events[..|events| - 1];
      assert forall i :: 0 <= i < |init| ==> init[i] == events[i];
      ScanOfSeenEventsEmitsNothing(c, init);
    }
  }

  /** Re-polling a history already fully seen emits nothing. */
  lemma RepollEmitsNothing(c: Cursor, events: seq<Event>)
    ensures Scan(Scan(c, events).cursor, events).emitted == []
  {
    ScanInvariant(c, events);
    ScanOfSeenEventsEmitsNothing(Scan(c, events).cursor, events);
  }

  /** Filtering two polls one after the other is filtering their concatenation: the
      batches form one stream, as in the source, where the polled arrays are flattened. */
  lemma {:induction false} ScanAppend(c: Cursor, first: seq<Event>, second: seq<Event>)
    ensures var r1 := Scan(c, first);
      var r2 := Scan(r1.cursor, second);
      Scan(c, first + second) == Scanned(r1.emitted + r2.emitted, r2.cursor)
  {
    if |second| > 0 {
      var init := second[..|second| - 1];
      assert (first + second)[..|first + second| - 1] == first + init;
      ScanAppend(c, first, init);
      assert (first + second)[|first + second| - 1] == second[|second| - 1];
      var r1 := Scan(c, first);
      var r2 := Scan(r1.cursor, init);
      assert r1.emitted + r2.emitted + [second[|second| - 1]] == r1.emitted + (r2.emitted + [second[|second| - 1]]);
    } else {
      assert first + second == first;
    }
  }

  /** Across two successive polls the emitted events still strictly increase, and the second
      poll emits only events after everything emitted by the first. */
  lemma AcrossPollsStrictlyIncreasing(c: Cursor, first: seq<Event>, second: seq<Event>)
    ensures var r1 := Scan(c, first);
      StrictlyIncreasing(r1.emitted + Scan(r1.cursor, second).emitted)
  {
    ScanAppend(c, first, second);
    ScanInvariant(c, first + second);
  }

  /** An event of the same transaction as one just emitted (same block and transaction index,
      another log index) is dropped: the filter cannot tell two logs of one transaction apart. */
  lemma SameTransactionLogDropped(c: Cursor, events: seq<Event>, e1: Event, e2: Event)
    requires Position(e1) == Position(e2)
    requires Passes(e1, Scan(c, events).cursor)
    ensures Scan(c, events + [e1, e2]).emitted == Scan(c, events).emitted + [e1]
  {
    assert (events + [e1, e2])[..|events| + 1] == events + [e1];
    assert (events + [e1])[..|events|] == events;
  }

  /** An event that is at or before an earlier event of the same stream is dropped and leaves
      the cursor alone: it meets the cursor the earlier event already advanced. */
  lemma OutOfOrderDropped(c: Cursor, events: seq<Event>, i: nat, j: nat)
    requires i < j < |events|
    requires AtOrBefore(Position(events[j]), Position(events[i]))
    ensures Scan(c, events[..j + 1]) == Scan(c, events[..j])
  {
    var init := events[..j];
    assert events[..j + 1][..j] == init;
    assert events[..j + 1][j] == events[j];
    ScanInvariant(c, init);
    assert init[i] == events[i];
    var r := Scan(c, init);
    assert AtOrBefore(Position(events[i]), r.cursor);
    if Position(events[j]) != Position(events[i]) && Position(events[i]) != r.cursor {
      BeforeTransitive(Position(events[j]), Position(events[i]), r.cursor);
    }
  }

  /** The cursor is where it started or on the position of some event of the stream. */
  lemma {:induction false} CursorFromStream(c: Cursor, events: seq<Event>)
    ensures var r := Scan(c, events);
      r.cursor == c || exists i :: 0 <= i < |events| && r.cursor == Position(events[i])
  {
    if |events| > 0 {
      var init := events[..|events| - 1];
      CursorFromStream(c, init);
      var r := Scan(c, init);
      if r.cursor != c && !Passes(events[|events| - 1], r.cursor) {
        var i :| 0 <= i < |init| && r.cursor == Position(init[i]);
        assert init[i] == events[i];
      }
    }
  }

  /** An event strictly after the cursor it started from and after every earlier event of the
      stream is always emitted, and the cursor moves onto it: no new event is missed. */
  lemma NewEventEmitted(c: Cursor, events: seq<Event>, j: nat)
    requires j < |events| && Before(c, Position(events[j]))
    requires forall i :: 0 <= i < j ==> Before(Position(events[i]), Position(events[j]))
    ensures Scan(c, events[..j + 1]) == Scanned(Scan(c, events[..j]).emitted + [events[j]], Position(events[j]))
  {
    var init := events[..j];
    assert events[..j + 1][..j] == init;
    assert events[..j + 1][j] == events[j];
    CursorFromStream(c, init);
    var r := Scan(c, init);
    if r.cursor != c {
      var i :| 0 <= i < |init| && r.cursor == Position(init[i]);
      assert init[i] == events[i];
    }
  }

  /** An event at or before the cursor the stream started from is dropped, whatever precedes it. */
  lemma SeenEventDropped(c: Cursor, events: seq<Event>, j: nat)
    requires j < |events| && AtOrBefore(Position(events[j]), c)
    ensures Scan(c, events[..j + 1]) == Scan(c, events[..j])
  {
    var init := events[..j];
    assert events[..j + 1][..j] == init;
    assert events[..j + 1][j] == events[j];
    ScanInvariant(c, init);
    var r := Scan(c, init);
    if Position(events[j]) != c && c != r.cursor {
      BeforeTransitive(Position(events[j]), c, r.cursor);
    }
  }

  /** From the initial cursor (0, 0) an event at block 0, transaction 0 is never emitted. */
  lemma ZeroPositionNeverEmitted(events: seq<Event>)
    ensures forall i :: 0 <= i < |Scan(Cursor(0, 0), events).emitted| ==>
      Position(Scan(Cursor(0, 0), events).emitted[i]) != Cursor(0, 0)
  {
    ScanInvariant(Cursor(0, 0), events);
  }

  /** Events at (1,0), (2,0), (2,1), (3,0) are all emitted once, in order, and a later tick
      that fetches only some of them again emits nothing. */
  lemma SyntheticStreamExample(a: Event, b: Event, c: Event, d: Event)
    requires Position(a) == Cursor(1, 0) && Position(b) == Cursor(2, 0)
    requires Position(c) == Cursor(2, 1) && Position(d) == Cursor(3, 0)
    ensures Scan(Cursor(0, 0), [a, b, c, d]) == Scanned([a, b, c, d], Cursor(3, 0))
    ensures Scan(Cursor(3, 0), [b, d]).emitted == []
  {
    var s := [a, b, c, d];
    assert [a][..0] == [];
    assert Scan(Cursor(0, 0), [a]) == Scanned([a], Cursor(1, 0));
    assert [a, b][..1] == [a];
    assert Scan(Cursor(0, 0), [a, b]) == Scanned([a, b], Cursor(2, 0));
    assert [a, b, c][..2] == [a, b];
    assert Scan(Cursor(0, 0), [a, b, c]) == Scanned([a, b, c], Cursor(2, 1));
    assert s[..3] == [a, b, c];
    assert [b][..0] == [];
    assert Scan(Cursor(3, 0), [b]) == Scanned([], Cursor(3, 0));
    assert [b, d][..1] == [b];
  }

  /** The watcher of one `watchContract` call: the two closure variables. */
  class Watcher {
    var lastBlock: int
    var lastTransactionIndex: int

    function CurrentCursor(): Cursor
      reads this
    {
      Cursor(lastBlock, lastTransactionIndex)
    }

    /** Both closure variables start at 0. */
    constructor ()
      ensures CurrentCursor() == Cursor(0, 0)
    {
      lastBlock := 0;
      lastTransactionIndex := 0;
    }

    /** One polled batch through `.filter` and `.do`: returns the events passed downstream
        and leaves the cursor on the last of them. */
    method Poll(batch: seq<Event>) returns (emitted: seq<Event>)
      modifies this
      ensures Scanned(emitted, CurrentCursor()) == Scan(old(CurrentCursor()), batch)
    {
      ghost var start := CurrentCursor();
      emitted := [];
      var i := 0;
      while i < |batch|
        invariant 0 <= i <= |batch|
        invariant Scanned(emitted, CurrentCursor()) == Scan(start, batch[..i])
      {
        var event := batch[i];
        assert batch[..i + 1][..i] == batch[..i];
        if event.blockNumber > lastBlock ||
           (event.blockNumber == lastBlock && event.transactionIndex > lastTransactionIndex)
        {
          emitted := emitted + [event];
          lastBlock := event.blockNumber;
          lastTransactionIndex := event.transactionIndex;
        }
        i := i + 1;
      }
      assert batch[..|batch|] == batch;
    }
  }
}
