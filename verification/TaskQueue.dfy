/**
 * The local task queue (mobile/src/task-queue.ts and its uses in
 * mobile/src/client.ts:1394-1400, 2085-2178): a list kept in order, checked
 * against a set of waiting entries from which the best or the worst is taken.
 */
module TaskQueue {
  import opened Common

  datatype Priority = Low | Normal | High

  datatype Request = Request(taskId: string, priority: Priority, preemptRunning: bool)

  /** `sequence` is the order of arrival on this device. */
  datatype Entry = Entry(request: Request, sequence: nat)

  function Rank(p: Priority): nat {
    match p
    case Low => 0
    case Normal => 1
    case High => 2
  }

  /** HIGH before NORMAL, NORMAL before LOW, and within a priority the older first. */
  lemma HighThenNormalThenLow(a: Entry, b: Entry)
    ensures Precedes(a, b)
       <==> match a.request.priority
            case High => b.request.priority == High ==> a.sequence < b.sequence
            case Normal => b.request.priority == Low || (b.request.priority == Normal && a.sequence < b.sequence)
            case Low => b.request.priority == Low && a.sequence < b.sequence
    ensures EvictedBefore(a, b)
       <==> match a.request.priority
            case High => b.request.priority == High && a.sequence < b.sequence
            case Normal => b.request.priority == High || (b.request.priority == Normal && a.sequence < b.sequence)
            case Low => b.request.priority == Low ==> a.sequence < b.sequence
  {}

  // ----------------------------------------------- the abstract queue

  /** `a` leaves the queue before `b`. */
  predicate Precedes(a: Entry, b: Entry) {
    || Rank(a.request.priority) > Rank(b.request.priority)
    || (Rank(a.request.priority) == Rank(b.request.priority) && a.sequence < b.sequence)
  }

  /** The order of eviction: lower rank first, then older. */
  predicate EvictedBefore(a: Entry, b: Entry) {
    || Rank(a.request.priority) < Rank(b.request.priority)
    || (Rank(a.request.priority) == Rank(b.request.priority) && a.sequence < b.sequence)
  }

  /** The oldest entry of the highest rank. */
  ghost predicate IsBest(e: Entry, waiting: set<Entry>) {
    e in waiting && forall x :: x in waiting && x != e ==> Precedes(e, x)
  }

  /** The oldest entry of the lowest rank. */
  ghost predicate IsVictim(e: Entry, waiting: set<Entry>) {
    e in waiting && forall x :: x in waiting && x != e ==> EvictedBefore(e, x)
  }

  ghost predicate Sorted(queue: seq<Entry>) {
    forall i, j :: 0 <= i < j < |queue| ==> Precedes(queue[i], queue[j])
  }

  /** The entries of a list; a sorted list holds each once. */
  function Waiting(queue: seq<Entry>): set<Entry> {
    set e | e in queue
  }

  ghost predicate ValidQueue(queue: seq<Entry>, nextSequence: nat) {
    && Sorted(queue)
    && (forall e :: e in queue ==> e.sequence < nextSequence)
    && (forall i, j :: 0 <= i < j < |queue| ==> queue[i].request.taskId != queue[j].request.taskId)
  }

  // ---------------------------------------------------- list operations

  /** Before the first entry of a lower rank, or at the end. */
  function Insert(queue: seq<Entry>, incoming: Entry): seq<Entry> {
    if queue == [] then [incoming]
    else if Rank(incoming.request.priority) > Rank(queue[0].request.priority) then [incoming] + queue
    else [queue[0]] + Insert(queue[1..], incoming)
  }

  lemma {:induction false} InsertSplices(queue: seq<Entry>, incoming: Entry, index: nat)
    requires index <= |queue|
    requires forall k :: 0 <= k < index ==> Rank(incoming.request.priority) <= Rank(queue[k].request.priority)
    requires index < |queue| ==> Rank(incoming.request.priority) > Rank(queue[index].request.priority)
    ensures Insert(queue, incoming) == queue[..index] + [incoming] + queue[index..]
    decreases index
  {
    if index == 0 {
      assert queue[..0] == [] && queue[0..] == queue;
    } else {
      var rest := queue[1..];
      assert rest[..index - 1] == queue[1..index];
      assert rest[index - 1..] == queue[index..];
      assert queue[..index] == [queue[0]] + queue[1..index];
      InsertSplices(rest, incoming, index - 1);
    }
  }

  predicate Newest(queue: seq<Entry>, incoming: Entry) {
    forall e :: e in queue ==> e.sequence < incoming.sequence
  }

  lemma {:induction false} InsertKeepsOrder(queue: seq<Entry>, incoming: Entry)
    requires Sorted(queue) && Newest(queue, incoming)
    ensures Sorted(Insert(queue, incoming))
    ensures forall e :: e in Insert(queue, incoming) <==> e in queue || e == incoming
    ensures |Insert(queue, incoming)| == |queue| + 1
    decreases |queue|
  {
    if queue != [] {
      assert queue[0] in queue;
      if Rank(incoming.request.priority) > Rank(queue[0].request.priority) {
        var all := [incoming] + queue;
        assert forall j :: 0 < j < |all| ==> all[j] == queue[j - 1];
      } else {
        InsertKeepsOrder(queue[1..], incoming);
        var rest := Insert(queue[1..], incoming);
        assert queue == [queue[0]] + queue[1..];
        forall j | 0 <= j < |rest|
          ensures Precedes(queue[0], rest[j])
        {
          assert rest[j] in rest;
          if rest[j] != incoming {
            var i :| 0 <= i < |queue[1..]| && queue[1..][i] == rest[j];
            assert queue[i + 1] == rest[j];
          }
        }
      }
    }
  }

  predicate Evictable(e: Entry, incoming: Request) {
    Rank(e.request.priority) < Rank(incoming.priority)
  }

  /** The first candidate in eviction order among the first `n` entries. */
  function LeastCandidate(queue: seq<Entry>, incoming: Request, n: nat): Option<nat>
    requires n <= |queue|
    ensures LeastCandidate(queue, incoming, n).Some? ==> LeastCandidate(queue, incoming, n).value < n
  {
    if n == 0 then None
    else
      var before := LeastCandidate(queue, incoming, n - 1);
      if !Evictable(queue[n - 1], incoming) then before
      else if before.None? || EvictedBefore(queue[n - 1], queue[before.value]) then Some(n - 1)
      else before
  }

  /** Only a HIGH arrival evicts. */
  function EvictionIndex(queue: seq<Entry>, incoming: Request): (index: Option<nat>)
    ensures index.Some? ==> index.value < |queue|
  {
    if incoming.priority != High then None else LeastCandidate(queue, incoming, |queue|)
  }

  lemma {:induction false} LeastCandidateIsLeast(queue: seq<Entry>, incoming: Request, n: nat)
    requires n <= |queue|
    ensures var found := LeastCandidate(queue, incoming, n);
            && (found.None? <==> forall i :: 0 <= i < n ==> !Evictable(queue[i], incoming))
            && (found.Some? ==>
                  && Evictable(queue[found.value], incoming)
                  && forall i :: 0 <= i < n && Evictable(queue[i], incoming) ==>
                     !EvictedBefore(queue[i], queue[found.value]))
    decreases n
  {
    if n != 0 {
      LeastCandidateIsLeast(queue, incoming, n - 1);
    }
  }

  /**
   * A HIGH arrival at a full queue removes the oldest entry of the lowest rank, never a HIGH one;
   * others remove nothing.
   */
  lemma {:induction false} EvictionIsRight(queue: seq<Entry>, nextSequence: nat, incoming: Request)
    requires ValidQueue(queue, nextSequence)
    ensures var found := EvictionIndex(queue, incoming);
            && (found.Some? <==> incoming.priority == High && exists e :: e in queue && e.request.priority != High)
            && (found.Some? ==> found.value < |queue| && queue[found.value].request.priority != High
                                && IsVictim(queue[found.value], Waiting(queue)))
  {
    LeastCandidateIsLeast(queue, incoming, |queue|);
    var found := EvictionIndex(queue, incoming);
    if found.Some? {
      var victim := queue[found.value];
      forall x | x in Waiting(queue) && x != victim
        ensures EvictedBefore(victim, x)
      {
        var i :| 0 <= i < |queue| && queue[i] == x;
        assert Precedes(queue[i], queue[found.value]) || Precedes(queue[found.value], queue[i]);
      }
    }
  }

  function RemoveAt(queue: seq<Entry>, index: nat): seq<Entry>
    requires index < |queue|
  {
    queue[..index] + queue[index + 1..]
  }

  lemma {:induction false} RemovalKeepsOrder(queue: seq<Entry>, nextSequence: nat, index: nat)
    requires ValidQueue(queue, nextSequence) && index < |queue|
    ensures ValidQueue(RemoveAt(queue, index), nextSequence)
    ensures Waiting(RemoveAt(queue, index)) == Waiting(queue) - {queue[index]}
  {
    var left := RemoveAt(queue, index);
    assert forall i :: 0 <= i < |left| ==> left[i] == queue[if i < index then i else i + 1];
    forall e | e in queue && e != queue[index]
      ensures e in left
    {
      var i :| 0 <= i < |queue| && queue[i] == e;
      assert left[if i < index then i else i - 1] == e;
    }
  }

  /** The head is the oldest entry of the highest rank. */
  lemma {:induction false} HeadIsBest(queue: seq<Entry>)
    requires Sorted(queue) && queue != []
    ensures IsBest(queue[0], Waiting(queue))
  {
    forall x | x in Waiting(queue) && x != queue[0]
      ensures Precedes(queue[0], x)
    {
      var i :| 0 <= i < |queue| && queue[i] == x;
    }
  }

  /** Best entries are unique, so the list decides nothing that the set leaves open. */
  lemma {:induction false} BestIsUnique(a: Entry, b: Entry, waiting: set<Entry>)
    requires IsBest(a, waiting) && IsBest(b, waiting)
    ensures a == b
  {
    assert !(Precedes(a, b) && Precedes(b, a));
  }

  lemma {:induction false} InsertedIsValid(queue: seq<Entry>, nextSequence: nat, request: Request)
    requires ValidQueue(queue, nextSequence) && forall e :: e in queue ==> e.request.taskId != request.taskId
    ensures ValidQueue(Insert(queue, Entry(request, nextSequence)), nextSequence + 1)
    ensures Waiting(Insert(queue, Entry(request, nextSequence))) == Waiting(queue) + {Entry(request, nextSequence)}
  {
    var incoming := Entry(request, nextSequence);
    InsertKeepsOrder(queue, incoming);
    var all := Insert(queue, incoming);
    forall i, j | 0 <= i < j < |all|
      ensures all[i].request.taskId != all[j].request.taskId
    {
      assert Precedes(all[i], all[j]);
      if all[i] != incoming && all[j] != incoming {
        assert all[i] in all && all[j] in all;
        var p :| 0 <= p < |queue| && queue[p] == all[i];
        var q :| 0 <= q < |queue| && queue[q] == all[j];
        assert p != q;
      } else {
        assert all[i] in all && all[j] in all;
      }
    }
  }

  // ------------------------------------------------------ in-place queue

  class Queue {
    var entries: seq<Entry>
    var nextSequence: nat
    const limit: nat

    ghost predicate Valid()
      reads this
    {
      ValidQueue(entries, nextSequence) && |entries| <= limit
    }

    constructor (limit: nat)
      requires limit >= 1
      ensures Valid() && entries == [] && this.limit == limit
    {
      this.limit := limit;
      entries, nextSequence := [], 0;
    }

    /** Scans for the place, then splices the entry in. */
    method InsertQueued(incoming: Entry)
      modifies this`entries
      ensures entries == Insert(old(entries), incoming)
    {
      var index := 0;
      while index < |entries| && Rank(incoming.request.priority) <= Rank(entries[index].request.priority)
        invariant index <= |entries|
        invariant forall k :: 0 <= k < index ==> Rank(incoming.request.priority) <= Rank(entries[k].request.priority)
      {
        index := index + 1;
      }
      InsertSplices(entries, incoming, index);
      entries := if index == |entries| then entries + [incoming] else entries[..index] + [incoming] + entries[index..];
    }

    /** The oldest entry of the highest rank, if any. */
    method Dequeue() returns (e: Option<Entry>)
      requires Valid()
      modifies this`entries
      ensures Valid()
      ensures old(entries) == [] ==> e == None && entries == []
      ensures old(entries) != [] ==>
              e.Some? && IsBest(e.value, old(Waiting(entries)))
              && Waiting(entries) == old(Waiting(entries)) - {e.value}
    {
      if entries == [] { return None; }
      HeadIsBest(entries);
      RemovalKeepsOrder(entries, nextSequence, 0);
      assert RemoveAt(entries, 0) == entries[1..];
      e := Some(entries[0]);
      entries := entries[1..];
    }

    method Cancel(taskId: string) returns (e: Option<Entry>)
      requires Valid()
      modifies this`entries
      ensures Valid()
      ensures e.None? ==> entries == old(entries) && forall x :: x in entries ==> x.request.taskId != taskId
      ensures e.Some? ==> e.value in old(Waiting(entries)) && e.value.request.taskId == taskId
                          && Waiting(entries) == old(Waiting(entries)) - {e.value}
    {
      for index := 0 to |entries|
        invariant entries == old(entries)
        invariant forall i :: 0 <= i < index ==> entries[i].request.taskId != taskId
      {
        if entries[index].request.taskId == taskId {
          RemovalKeepsOrder(entries, nextSequence, index);
          e := Some(entries[index]);
          entries := RemoveAt(entries, index);
          return;
        }
      }
      return None;
    }

    /** Takes a new task in; `evicted` made room for it. The caller has checked that its id is new. */
    method Enqueue(request: Request) returns (accepted: bool, evicted: Option<Entry>)
      requires Valid() && forall e :: e in entries ==> e.request.taskId != request.taskId
      modifies this
      ensures Valid()
      ensures evicted.Some? ==> accepted && |old(entries)| == limit && request.priority == High
                                && evicted.value.request.priority != High
                                   && IsVictim(evicted.value, old(Waiting(entries)))
      ensures accepted <==>
              |old(entries)| < limit
              || (request.priority == High && exists e :: e in old(entries) && e.request.priority != High)
      ensures evicted.None? && accepted ==> |old(entries)| < limit
      ensures !accepted ==> entries == old(entries) && nextSequence == old(nextSequence)
      ensures accepted ==>
                && nextSequence == old(nextSequence) + 1
                && Waiting(entries) == old(Waiting(entries)) - (if evicted.Some? then {evicted.value} else {})
                                       + {Entry(request, old(nextSequence))}
    {
      evicted := None;
      if |entries| >= limit {
        EvictionIsRight(entries, nextSequence, request);
        var index := EvictionIndex(entries, request);
        if index.None? { return false, None; }
        evicted := Some(entries[index.value]);
        RemovalKeepsOrder(entries, nextSequence, index.value);
        entries := RemoveAt(entries, index.value);
      }
      InsertedIsValid(entries, nextSequence, request);
      var incoming := Entry(request, nextSequence);
      InsertKeepsOrder(entries, incoming);
      nextSequence := nextSequence + 1;
      InsertQueued(incoming);
      accepted := true;
    }
  }
}
