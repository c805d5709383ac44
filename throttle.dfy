/**
 * The "remote device updated" throttle of the renderer's registry listener.
 *
 * The listener keeps a table from a peer's descriptor URL to the time of the
 * last update it surfaced. An update is surfaced, and the table rewritten,
 * only when the URL is new or more than 30 000 ms have passed since the last
 * surfaced update for that URL. The clock is an input; it need not be
 * monotonic.
 */
module RemoteDeviceThrottle {
  import opened Wrappers

  /** The quiescence window, in milliseconds. */
  const QuietWindowMillis: int := 30 * 1000

  /** A Java `long`. */
  type Long = x: int | -0x8000_0000_0000_0000 <= x < 0x8000_0000_0000_0000

  /** Java's `long` subtraction: the exact difference wrapped into 64 bits. */
  function LongSub(a: Long, b: Long): (d: Long)
    ensures d == a - b || d == a - b - 0x1_0000_0000_0000_0000 || d == a - b + 0x1_0000_0000_0000_0000
    ensures -0x8000_0000_0000_0000 <= a - b < 0x8000_0000_0000_0000 ==> d == a - b
  {
    var e := a - b;
    if e >= 0x8000_0000_0000_0000 then e - 0x1_0000_0000_0000_0000
    else if e < -0x8000_0000_0000_0000 then e + 0x1_0000_0000_0000_0000
    else e
  }

  /** A peer's descriptor location. */
  type Url = string

  /** One "remote device updated" notification: its descriptor URL and the clock reading. */
  datatype Update = Update(url: Url, now: Long)

  /** Descriptor URL to the time of the last surfaced update. */
  type Table = map<Url, Long>

  function Lookup(t: Table, u: Url): Option<Long>
  {
    if u in t then Some(t[u]) else None
  }

  /** Whether an update at `now` is surfaced, given the last surfaced time for its URL. */
  predicate Surfaces(last: Option<Long>, now: Long)
  {
    last.None? || LongSub(now, last.value) > QuietWindowMillis
  }

  /** The table after one notification, and whether that notification was surfaced. */
  datatype Step = Step(table: Table, surfaced: bool)

  function Apply(t: Table, e: Update): (s: Step)
    // the first update for a URL is always surfaced, and its time recorded
    ensures e.url !in t ==> s.surfaced && s.table == t[e.url := e.now]
    // without overflow, a later one is surfaced exactly when more than the window has elapsed
    ensures e.url in t && -0x8000_0000_0000_0000 <= e.now - t[e.url] < 0x8000_0000_0000_0000 ==>
              (s.surfaced <==> e.now - t[e.url] > QuietWindowMillis)
    ensures s.surfaced ==> s.table == t[e.url := e.now]
    // a suppressed update leaves the table as it was
    ensures !s.surfaced ==> s.table == t
    // keys only grow, and no other URL's entry changes
    ensures s.table.Keys == t.Keys + {e.url}
    ensures forall u :: u in t && u != e.url ==> s.table[u] == t[u]
  {
    if Surfaces(Lookup(t, e.url), e.now) then Step(t[e.url := e.now], true) else Step(t, false)
  }

  /** The table after a sequence of notifications. */
  function Replay(t: Table, es: seq<Update>): Table
    decreases |es|
  {
    if es == [] then t else Apply(Replay(t, es[..|es| - 1]), es[|es| - 1]).table
  }

  /**
   * Reference definition of the throttle, independent of the table: the
   * subsequence of notifications that are surfaced. A notification is kept when
   * its URL has no earlier kept notification (nor an entry in the starting
   * table), or when more than the window has passed since the last KEPT one.
   */
  function SurfacedLog(t: Table, es: seq<Update>): seq<Update>
    decreases |es|
  {
    if es == [] then []
    else
      var log := SurfacedLog(t, es[..|es| - 1]);
      var e := es[|es| - 1];
      if Surfaces(LastTime(t, log, e.url), e.now) then log + [e] else log
  }

  /** The time of the last notification for `u` in `log`, falling back to the table. */
  function LastTime(t: Table, log: seq<Update>, u: Url): Option<Long>
    decreases |log|
  {
    if log == [] then Lookup(t, u)
    else if log[|log| - 1].url == u then Some(log[|log| - 1].now)
    else LastTime(t, log[..|log| - 1], u)
  }

  /** The table records, for every URL, the time of the last surfaced notification. */
  lemma {:induction false} ReplayRecordsLastSurfaced(t: Table, es: seq<Update>, u: Url)
    ensures Lookup(Replay(t, es), u) == LastTime(t, SurfacedLog(t, es), u)
  {
    if es != [] {
      var init, e := es[..|es| - 1], es[|es| - 1];
      ReplayRecordsLastSurfaced(t, init, u);
      ReplayRecordsLastSurfaced(t, init, e.url);
      var log := SurfacedLog(t, init);
      if Surfaces(LastTime(t, log, e.url), e.now) {
        assert (log + [e])[..|log|] == log;
      }
    }
  }

  /**
   * Every surfaced notification is the first for its URL or comes more than
   * the window after the previous surfaced one for that URL: at most one
   * notification per URL is surfaced per window.
   */
  lemma {:induction false} SurfacedLogIsSpaced(t: Table, es: seq<Update>, j: nat)
    requires j < |SurfacedLog(t, es)|
    ensures Surfaces(LastTime(t, SurfacedLog(t, es)[..j], SurfacedLog(t, es)[j].url), SurfacedLog(t, es)[j].now)
  {
    var init, e := es[..|es| - 1], es[|es| - 1];
    var log := SurfacedLog(t, init);
    if j < |log| {
      SurfacedLogIsSpaced(t, init, j);
      assert SurfacedLog(t, es)[..j] == log[..j];
    } else {
      assert SurfacedLog(t, es) == log + [e];
      assert (log + [e])[..j] == log;
    }
  }

  /** One more notification: the table and the reference log advance in step. */
  lemma ReplayStep(t: Table, es: seq<Update>, e: Update)
    ensures Replay(t, es + [e]) == Apply(Replay(t, es), e).table
    ensures SurfacedLog(t, es + [e]) ==
              if Apply(Replay(t, es), e).surfaced then SurfacedLog(t, es) + [e] else SurfacedLog(t, es)
  {
    assert (es + [e])[..|es|] == es;
    ReplayRecordsLastSurfaced(t, es, e.url);
  }

  /** The positions in `es` of the notifications that are surfaced. */
  function SurfacedIndices(t: Table, es: seq<Update>): seq<nat>
    decreases |es|
  {
    if es == [] then []
    else
      var idx := SurfacedIndices(t, es[..|es| - 1]);
      var e := es[|es| - 1];
      if Surfaces(LastTime(t, SurfacedLog(t, es[..|es| - 1]), e.url), e.now) then idx + [|es| - 1] else idx
  }

  /**
   * The surfaced notifications are a subsequence of the received ones, in
   * order: the k-th surfaced one is the notification at an increasing position.
   */
  lemma {:induction false} SurfacedLogIsSubsequence(t: Table, es: seq<Update>)
    ensures |SurfacedIndices(t, es)| == |SurfacedLog(t, es)|
    ensures forall k :: 0 <= k < |SurfacedIndices(t, es)| ==>
              SurfacedIndices(t, es)[k] < |es| && SurfacedLog(t, es)[k] == es[SurfacedIndices(t, es)[k]]
    ensures forall j, k :: 0 <= j < k < |SurfacedIndices(t, es)| ==>
              SurfacedIndices(t, es)[j] < SurfacedIndices(t, es)[k]
  {
    if es != [] {
      var init := es[..|es| - 1];
      SurfacedLogIsSubsequence(t, init);
      assert forall i :: 0 <= i < |init| ==> init[i] == es[i];
    }
  }

  /** The table's keys are the starting keys plus every URL ever seen: nothing is pruned. */
  lemma {:induction false} ReplayKeys(t: Table, es: seq<Update>)
    ensures Replay(t, es).Keys == t.Keys + (set i | 0 <= i < |es| :: es[i].url)
  {
    if es != [] {
      var init := es[..|es| - 1];
      ReplayKeys(t, init);
      assert (set i | 0 <= i < |es| :: es[i].url)
          == (set i | 0 <= i < |init| :: init[i].url) + {es[|es| - 1].url};
    }
  }

  /** Notifications for other URLs never change a URL's entry. */
  lemma {:induction false} ReplayLeavesOtherUrls(t: Table, es: seq<Update>, u: Url)
    requires forall i :: 0 <= i < |es| ==> es[i].url != u
    ensures Lookup(Replay(t, es), u) == Lookup(t, u)
  {
    if es != [] {
      ReplayLeavesOtherUrls(t, es[..|es| - 1], u);
    }
  }
}
