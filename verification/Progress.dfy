/** Progress reports and their write throttle (pool/progress.go). */
module Progress {
  import opened Tasks

  /** `lastFlush` is None until the first flush. */
  datatype Entry = Entry(value: (int, int), lastFlush: Option<Time>)

  /** `stored` is the progress column of the backend, `updates` the metric. */
  datatype Book = Book(entries: map<TaskId, Entry>, stored: map<TaskId, (int, int)>, updates: nat)

  /** One SetProgress call; `accepted` says whether the backend would take a write. */
  datatype Call = Call(id: TaskId, value: (int, int), now: Time, accepted: bool)

  function LastFlush(book: Book, id: TaskId): Option<Time> {
    if id in book.entries then book.entries[id].lastFlush else None
  }

  predicate Flushes(book: Book, throttle: int, c: Call) {
    !(throttle > 0 && LastFlush(book, c.id).Some? && c.now - LastFlush(book, c.id).value < throttle)
  }

  /** The flush time is taken before the write is attempted; a refused write is not retried. */
  function Reported(book: Book, throttle: int, c: Call): Book {
    var flush := Flushes(book, throttle, c);
    Book(book.entries[c.id := Entry(c.value, if flush then Some(c.now) else LastFlush(book, c.id))],
         if flush && c.accepted then book.stored[c.id := c.value] else book.stored,
         if flush && !c.accepted then book.updates else book.updates + 1)
  }

  function After(book: Book, throttle: int, calls: seq<Call>): Book
    decreases |calls|
  {
    if calls == [] then book else After(Reported(book, throttle, calls[0]), throttle, calls[1..])
  }

  /** The times at which a run of calls flushes `id`. */
  function FlushTimes(book: Book, throttle: int, calls: seq<Call>, id: TaskId): seq<Time>
    decreases |calls|
  {
    if calls == [] then []
    else
      var rest := FlushTimes(Reported(book, throttle, calls[0]), throttle, calls[1..], id);
      if calls[0].id == id && Flushes(book, throttle, calls[0]) then [calls[0].now] + rest else rest
  }

  ghost predicate Spaced(times: seq<Time>, throttle: int, since: Option<Time>) {
    && (forall i, j :: 0 <= i < j < |times| ==> times[j] - times[i] >= throttle)
    && (since.Some? ==> forall i :: 0 <= i < |times| ==> times[i] - since.value >= throttle)
  }

  /** Consecutive flushes of a task are at least the throttle apart, the first one measured from the flush
      before the run; a clock that steps back only delays them. */
  lemma {:induction false} FlushesAreSpaced(book: Book, throttle: int, calls: seq<Call>, id: TaskId)
    requires throttle > 0
    ensures Spaced(FlushTimes(book, throttle, calls, id), throttle, LastFlush(book, id))
    decreases |calls|
  {
    if calls != [] {
      var next := Reported(book, throttle, calls[0]);
      FlushesAreSpaced(next, throttle, calls[1..], id);
    }
  }

  predicate ReportedIn(calls: seq<Call>, id: TaskId, v: (int, int)) {
    exists k :: 0 <= k < |calls| && calls[k].id == id && calls[k].value == v
  }

  /** Whatever is stored after a run was stored before it or is a value some call reported. */
  lemma {:induction false} StoredWasReported(book: Book, throttle: int, calls: seq<Call>, id: TaskId)
    ensures var e := After(book, throttle, calls);
            id in e.stored ==>
              (id in book.stored && e.stored[id] == book.stored[id]) || ReportedIn(calls, id, e.stored[id])
    decreases |calls|
  {
    if calls != [] {
      var next := Reported(book, throttle, calls[0]);
      StoredWasReported(next, throttle, calls[1..], id);
      var e := After(book, throttle, calls);
      if id in e.stored && ReportedIn(calls[1..], id, e.stored[id]) {
        var k :| 0 <= k < |calls[1..]| && calls[1..][k].id == id && calls[1..][k].value == e.stored[id];
        assert calls[k + 1].id == id && calls[k + 1].value == e.stored[id];
      }
    }
  }

  /** The cache always holds the latest report. The backend holds it exactly when the call was flushed and
      accepted or reported what was stored anyway: a throttled last report is never written. */
  lemma LatestIsStoredExactly(book: Book, throttle: int, c: Call)
    ensures var next := Reported(book, throttle, c);
            && next.entries[c.id].value == c.value
            && ((c.id in next.stored && next.stored[c.id] == c.value)
                <==> (Flushes(book, throttle, c) && c.accepted)
                     || (c.id in book.stored && book.stored[c.id] == c.value))
  {
  }

  /** A report may wait only for the interval after the task's last flush. */
  predicate MustFlush(throttle: int, last: Option<Time>, now: Time) {
    throttle <= 0 || last.None? || now >= last.value + throttle
  }

  /** A report is written exactly when it has not to wait and the backend takes it; the cache, the flush time and the
      metric change as said, and nothing else does. */
  lemma ReportIsWrittenExactly(book: Book, throttle: int, c: Call)
    ensures var last := if c.id in book.entries then book.entries[c.id].lastFlush else None;
            var must, next := MustFlush(throttle, last, c.now), Reported(book, throttle, c);
            && next.stored == (if must && c.accepted then book.stored[c.id := c.value] else book.stored)
            && next.entries == book.entries[c.id := Entry(c.value, if must then Some(c.now) else last)]
            && next.updates == (if must && !c.accepted then book.updates else book.updates + 1)
  {
  }

  /** Every report of `id` from `from` on comes within the interval after `since`. */
  ghost predicate AllWithin(calls: seq<Call>, from: nat, id: TaskId, throttle: int, since: Time) {
    forall j :: from <= j < |calls| && calls[j].id == id ==> throttle > 0 && calls[j].now < since + throttle
  }

  /** What is stored of `id` is report `k`, and all later ones came within the interval after it. */
  ghost predicate LastWritten(e: Book, calls: seq<Call>, id: TaskId, throttle: int, k: nat) {
    && k < |calls| && calls[k].id == id && id in e.stored && e.stored[id] == calls[k].value
    && AllWithin(calls, k + 1, id, throttle, calls[k].now)
  }

  /** All reports of `id` came within the interval after the flush before the run, and what is stored is as it was. */
  ghost predicate NothingDue(book: Book, e: Book, calls: seq<Call>, id: TaskId, throttle: int) {
    && (id in e.stored <==> id in book.stored) && (id in e.stored ==> e.stored[id] == book.stored[id])
    && forall j :: 0 <= j < |calls| && calls[j].id == id ==>
         && id in book.entries && book.entries[id].lastFlush.Some?
         && throttle > 0 && calls[j].now < book.entries[id].lastFlush.value + throttle
  }

  lemma LastWrittenLater(e: Book, calls: seq<Call>, id: TaskId, throttle: int, k: nat)
    requires calls != [] && LastWritten(e, calls[1..], id, throttle, k)
    ensures LastWritten(e, calls, id, throttle, k + 1)
  {
    assert forall j :: 0 < j < |calls| ==> calls[j] == calls[1..][j - 1];
  }

  /** The stored value lags behind the last report only by reports made within the interval after a flush: it is some
      report of the run with all later ones that close to it, or all reports of the run were that close to the flush
      before it. */
  lemma {:induction false} StoredLagsOnlyTheInterval(book: Book, throttle: int, calls: seq<Call>, id: TaskId)
    requires forall k :: 0 <= k < |calls| && calls[k].id == id ==> calls[k].accepted
    ensures var e := After(book, throttle, calls);
            (exists k: nat :: LastWritten(e, calls, id, throttle, k)) || NothingDue(book, e, calls, id, throttle)
    decreases |calls|
  {
    if calls != [] {
      var next, rest := Reported(book, throttle, calls[0]), calls[1..];
      var e := After(book, throttle, calls);
      ReportIsWrittenExactly(book, throttle, calls[0]);
      StoredLagsOnlyTheInterval(next, throttle, rest, id);
      if k: nat :| LastWritten(e, rest, id, throttle, k) {
        LastWrittenLater(e, calls, id, throttle, k);
      } else {
        assert NothingDue(next, e, rest, id, throttle);
        assert forall j :: 0 < j < |calls| ==> calls[j] == rest[j - 1];
        if calls[0].id == id && MustFlush(throttle, LastFlush(book, id), calls[0].now) {
          assert LastWritten(e, calls, id, throttle, 0);
        }
      }
    }
  }

  /** From an empty book: once a task was reported, the backend holds a report with all later ones made within the
      interval after it. */
  lemma StoredIsRecent(throttle: int, calls: seq<Call>, id: TaskId, first: nat)
    requires first < |calls| && calls[first].id == id
    requires forall k :: 0 <= k < |calls| && calls[k].id == id ==> calls[k].accepted
    ensures exists k: nat :: LastWritten(After(Book(map[], map[], 0), throttle, calls), calls, id, throttle, k)
  {
    StoredLagsOnlyTheInterval(Book(map[], map[], 0), throttle, calls, id);
  }

  /** With throttle 100, reporting 1/10 at time 0 and 10/10 at time 99 leaves 1/10 in the backend for good. */
  lemma LastReportIsDropped(later: seq<Call>)
    requires forall k :: 0 <= k < |later| ==> later[k].id != 7
    ensures var calls := [Call(7, (1, 10), 0, true), Call(7, (10, 10), 99, true)];
            var e := After(After(Book(map[], map[], 0), 100, calls), 100, later);
            7 in e.entries && e.entries[7].value == (10, 10) && 7 in e.stored && e.stored[7] == (1, 10)
  {
    var first, second := Call(7, (1, 10), 0, true), Call(7, (10, 10), 99, true);
    var one := Reported(Book(map[], map[], 0), 100, first);
    var two := Reported(one, 100, second);
    assert [first, second][1..] == [second] && [second][1..] == [];
    assert After(one, 100, [second]) == two;
    OthersLeaveAlone(two, 100, later, 7);
  }

  lemma {:induction false} OthersLeaveAlone(book: Book, throttle: int, calls: seq<Call>, id: TaskId)
    requires id in book.entries && id in book.stored && forall k :: 0 <= k < |calls| ==> calls[k].id != id
    ensures var e := After(book, throttle, calls);
            id in e.entries && id in e.stored && e.entries[id] == book.entries[id] && e.stored[id] == book.stored[id]
    decreases |calls|
  {
    if calls != [] { OthersLeaveAlone(Reported(book, throttle, calls[0]), throttle, calls[1..], id); }
  }

  class ProgressTracker {
    const throttle: int
    var entries: map<TaskId, Entry>
    var stored: map<TaskId, (int, int)>
    var updates: nat

    ghost function State(): Book
      reads this
    {
      Book(entries, stored, updates)
    }

    constructor (throttle: int)
      ensures this.throttle == throttle && State() == Book(map[], map[], 0)
    {
      this.throttle := throttle;
      entries, stored, updates := map[], map[], 0;
    }

    method SetProgress(id: TaskId, current: int, total: int, now: Time, accepted: bool) returns (flushed: bool)
      modifies this
      ensures State() == Reported(old(State()), throttle, Call(id, (current, total), now, accepted))
      ensures flushed == MustFlush(throttle, if id in old(entries) then old(entries)[id].lastFlush else None, now)
      ensures stored == if flushed && accepted then old(stored)[id := (current, total)] else old(stored)
    {
      var entry := if id in entries then entries[id] else Entry((0, 0), None);
      entry := entry.(value := (current, total));
      flushed := true;
      if throttle > 0 && entry.lastFlush.Some? && now - entry.lastFlush.value < throttle {
        flushed := false;
      }
      if flushed {
        entry := entry.(lastFlush := Some(now));
      }
      entries := entries[id := entry];
      if flushed {
        if !accepted {
          return;
        }
        stored := stored[id := (current, total)];
      }
      updates := updates + 1;
    }

    /** The snapshot has one value for each reported id: its latest. */
    method Snapshot() returns (result: map<TaskId, (int, int)>)
      ensures result.Keys == entries.Keys
      ensures forall id :: id in result ==> result[id] == entries[id].value
    {
      result := map[];
      var todo := entries.Keys;
      while todo != {}
        invariant todo <= entries.Keys && result.Keys == entries.Keys - todo
        invariant forall id :: id in result ==> result[id] == entries[id].value
        decreases |todo|
      {
        var id :| id in todo;
        result := result[id := entries[id].value];
        todo := todo - {id};
      }
    }
  }
}
