/** lua/watch_batcher.go: file-system events collected per path between
    ticks, so that a burst of writes to one file yields one event. */
module WatchBatcher {

  /** The fsnotify operation flags. */
  datatype Op = Create | Write | Remove | Rename | Chmod

  /** An fsnotify event: the path and the set of flags it carries. */
  datatype FsEvent = FsEvent(name: string, ops: set<Op>)

  predicate IsWrite(e: FsEvent) {
    Write in e.ops || Create in e.ops
  }

  predicate IsRemoval(e: FsEvent) {
    Remove in e.ops || Rename in e.ops
  }

  /** The pending map after one event. The switch tests Write/Create
      first, so an event carrying both kinds of flag is recorded. */
  function Pending(changed: map<string, FsEvent>, e: FsEvent): (r: map<string, FsEvent>)
    ensures forall k :: k != e.name ==> (k in r <==> k in changed)
    ensures forall k :: k != e.name && k in r ==> r[k] == changed[k]
    ensures e.name in r <==> IsWrite(e) || (e.name in changed && !IsRemoval(e))
    ensures IsWrite(e) ==> r[e.name] == e
    ensures !IsWrite(e) && e.name in r ==> r[e.name] == changed[e.name]
  {
    if IsWrite(e) then changed[e.name := e]
    else if IsRemoval(e) then changed - {e.name}
    else changed
  }

  /** Every pending event is filed under its own path. */
  predicate KeyedByName(changed: map<string, FsEvent>) {
    forall k :: k in changed ==> changed[k].name == k
  }

  lemma PendingKeyedByName(changed: map<string, FsEvent>, e: FsEvent)
    requires KeyedByName(changed)
    ensures KeyedByName(Pending(changed, e))
  {
  }

  /** Two writes to one path before a tick leave a single pending event,
      the later one. */
  lemma LaterWriteWins(changed: map<string, FsEvent>, w1: FsEvent, w2: FsEvent)
    requires w1.name == w2.name && IsWrite(w2)
    ensures Pending(Pending(changed, w1), w2) == Pending(changed, w2)
    ensures Pending(Pending(changed, w1), w2)[w2.name] == w2
  {
  }

  /** A write followed by a removal leaves nothing pending for the path. */
  lemma RemovalCancelsWrite(changed: map<string, FsEvent>, w: FsEvent, d: FsEvent)
    requires w.name == d.name && IsWrite(w) && IsRemoval(d) && !IsWrite(d)
    ensures w.name !in Pending(Pending(changed, w), d)
    ensures Pending(Pending(changed, w), d) == changed - {w.name}
  {
  }

  /** An event with no flag that the switch tests changes nothing. */
  lemma IgnoredEvent(changed: map<string, FsEvent>, e: FsEvent)
    requires !IsWrite(e) && !IsRemoval(e)
    ensures Pending(changed, e) == changed
  {
  }

  /** `order` lists each key of `keys` exactly once. */
  ghost predicate Enumerates(order: seq<string>, keys: set<string>) {
    && (forall i :: 0 <= i < |order| ==> order[i] in keys)
    && (forall i, j :: 0 <= i < j < |order| ==> order[i] != order[j])
    && (forall k :: k in keys ==> k in order)
  }

  /** The events a tick sends, in the order the map was iterated. */
  function Batch(changed: map<string, FsEvent>, order: seq<string>): (b: seq<FsEvent>)
    requires forall i :: 0 <= i < |order| ==> order[i] in changed
    ensures |b| == |order|
    ensures forall i :: 0 <= i < |order| ==> b[i] == changed[order[i]]
  {
    if order == [] then []
    else Batch(changed, order[..|order| - 1]) + [changed[order[|order| - 1]]]
  }

  /** A batch of a map keyed by name holds each pending event exactly once. */
  lemma {:induction false} BatchHoldsEachOnce(changed: map<string, FsEvent>, order: seq<string>)
    requires KeyedByName(changed) && Enumerates(order, changed.Keys)
    ensures forall k :: k in changed ==> changed[k] in Batch(changed, order)
    ensures forall i, j :: 0 <= i < j < |order| ==> Batch(changed, order)[i] != Batch(changed, order)[j]
  {
    var b := Batch(changed, order);
    forall k | k in changed ensures changed[k] in b {
      var i :| 0 <= i < |order| && order[i] == k;
      assert b[i] == changed[k];
    }
    forall i, j | 0 <= i < j < |order| ensures b[i] != b[j] {
      assert b[i].name == order[i] && b[j].name == order[j];
    }
  }

  class Batcher {
    /** Pending events by path. */
    var changed: map<string, FsEvent>
    /** What has been sent on the events channel. */
    var sent: seq<FsEvent>

    predicate Valid()
      reads this
    {
      KeyedByName(changed)
    }

    /** newBatcher: an empty pending map; the fsnotify watcher and the
        goroutine are not modelled. */
    constructor ()
      ensures Valid() && changed == map[] && sent == []
    {
      changed := map[];
      sent := [];
    }

    /** One event from the watcher. */
    method HandleEvent(e: FsEvent)
      requires Valid()
      modifies this
      ensures Valid()
      ensures changed == Pending(old(changed), e) && sent == old(sent)
    {
      if IsWrite(e) {
        changed := changed[e.name := e];
      } else if Remove in e.ops {
        changed := changed - {e.name};
      } else if Rename in e.ops {
        changed := changed - {e.name};
      }
    }

    /** One tick: every pending event sent, in map iteration order
        (`order`), and the map replaced by an empty one. */
    method Tick() returns (ghost order: seq<string>)
      requires Valid()
      modifies this
      ensures Valid() && changed == map[]
      ensures Enumerates(order, old(changed).Keys)
      ensures sent == old(sent) + Batch(old(changed), order)
    {
      order := [];
      var remaining := changed.Keys;
      while remaining != {}
        invariant changed == old(changed) && remaining <= changed.Keys
        invariant forall i :: 0 <= i < |order| ==> order[i] in changed && order[i] !in remaining
        invariant forall i, j :: 0 <= i < j < |order| ==> order[i] != order[j]
        invariant forall k :: k in changed && k !in remaining ==> k in order
        invariant sent == old(sent) + Batch(changed, order)
        decreases |remaining|
      {
        var k :| k in remaining;
        sent := sent + [changed[k]];
        order := order + [k];
        remaining := remaining - {k};
      }
      changed := map[];
    }
  }
}
