/** `LogManager`: the last lines of every machine, and channels that replay them and then follow. */
module Logs {
  import opened Common

  type MachineId = string

  datatype Entry = Entry(machine: MachineId, source: string, message: string, time: int, replay: bool)

  const Slack := 64

  // ---- Sequences of entries ----

  /** The last `n` elements, or all when there are fewer. */
  function Tail<T>(s: seq<T>, n: nat): seq<T> {
    if |s| <= n then s else s[|s| - n..]
  }

  function Replayed(s: seq<Entry>): seq<Entry> {
    seq(|s|, i requires 0 <= i < |s| => s[i].(replay := true))
  }

  /** `a` is what is left of `b` when some elements are left out. */
  predicate Subsequence<T(==)>(a: seq<T>, b: seq<T>)
    decreases |b|
  {
    if a == [] then true
    else if b == [] then false
    else (Last(a) == Last(b) && Subsequence(a[..|a| - 1], b[..|b| - 1])) || Subsequence(a, b[..|b| - 1])
  }

  lemma SubsequenceSnoc<T>(a: seq<T>, b: seq<T>, x: T)
    requires Subsequence(a, b)
    ensures Subsequence(a, b + [x]) && Subsequence(a + [x], b + [x])
  {
    assert (b + [x])[..|b|] == b && (a + [x])[..|a|] == a;
  }

  /** A subsequence keeps the order of what it keeps. */
  lemma {:induction false} SubsequencePositions<T>(a: seq<T>, b: seq<T>) returns (at: seq<nat>)
    requires Subsequence(a, b)
    ensures |at| == |a| && forall i :: 0 <= i < |a| ==> at[i] < |b| && b[at[i]] == a[i]
    ensures forall i, k :: 0 <= i < k < |a| ==> at[i] < at[k]
    decreases |b|
  {
    if a == [] {
      at := [];
    } else if Last(a) == Last(b) && Subsequence(a[..|a| - 1], b[..|b| - 1]) {
      at := SubsequencePositions(a[..|a| - 1], b[..|b| - 1]);
      at := at + [|b| - 1];
    } else {
      at := SubsequencePositions(a, b[..|b| - 1]);
    }
  }

  /** The last `n` of what was appended after the clear. */
  predicate IsBufferOf(buf: seq<Entry>, appended: seq<Entry>, clearedAt: nat, n: nat) {
    clearedAt <= |appended| && buf == Tail(appended[clearedAt..], n)
  }

  /** A full buffer gives up its oldest entry, and only that, for a new one. */
  lemma BufferMovesOn(buf: seq<Entry>, appended: seq<Entry>, clearedAt: nat, n: nat, e: Entry)
    requires n >= 1 && IsBufferOf(buf, appended, clearedAt, n)
    ensures IsBufferOf((if |buf| >= n then buf[1..] else buf) + [e], appended + [e], clearedAt, n)
    ensures (if |buf| >= n then buf[1..] else buf) + [e] == Tail(buf + [e], n)
  {
    var s := appended[clearedAt..];
    assert (appended + [e])[clearedAt..] == s + [e];
    if |buf| >= n {
      assert (s + [e])[|s| + 1 - n..] == s[|s| - n..][1..] + [e];
      assert (buf + [e])[|buf| + 1 - n..] == buf[1..] + [e];
    }
  }

  function RemovedAt<T>(s: seq<T>, i: nat): seq<T>
    requires i < |s|
  {
    s[..i] + s[i + 1..]
  }

  // ---- Channels ----

  /** A buffered channel. The ghost fields are its history: what was replayed into it, what was appended since,
      what of that was taken, and what was read from it. */
  class Channel {
    const capacity: nat
    var queue: seq<Entry>
    var closed: bool
    ghost var replayed: seq<Entry>
    ghost var offered: seq<Entry>
    ghost var taken: seq<Entry>
    ghost var received: seq<Entry>
    ghost var clearedAt: nat      // of the machine's appended entries: where its buffer began,
    ghost var since: nat          // and how many there were, when this channel subscribed

    ghost function Sent(): seq<Entry>
      reads this
    {
      Replayed(replayed) + taken
    }

    /** What was sent is what was read and what waits, in that order. */
    ghost predicate Fifo()
      reads this
    {
      Sent() == received + queue && |queue| <= capacity
    }

    /** Everything sent is the replay followed by an in-order part of the later entries, and at least the first
        `Slack` of these are there. */
    ghost predicate Follows()
      reads this
    {
      && Subsequence(taken, offered)
      && |replayed| + Slack <= capacity
      && (|offered| <= Slack ==> taken == offered)
      && (|offered| > Slack ==> offered[..Slack] <= taken)
    }

    constructor (capacity: nat)
      ensures this.capacity == capacity && queue == [] && !closed
      ensures replayed == [] && offered == [] && taken == [] && received == []
    {
      this.capacity := capacity;
      queue, closed := [], false;
      replayed, offered, taken, received := [], [], [], [];
    }

    /** A blocking send, where there is room; it would wait otherwise. */
    method Replay(e: Entry)
      requires Fifo() && !closed && |queue| < capacity && taken == [] && offered == []
      modifies this
      ensures Fifo() && !closed && taken == [] && offered == [] && received == old(received)
      ensures queue == old(queue) + [e.(replay := true)] && replayed == old(replayed) + [e]
    {
      var marked := e.(replay := true);
      queue := queue + [marked];
      replayed := replayed + [e];
      assert Replayed(replayed) == Replayed(old(replayed)) + [marked];
      assert received + queue == (received + old(queue)) + [marked];
    }

    /** A send that gives up when the channel is full. */
    method Offer(e: Entry) returns (sent: bool)
      requires Fifo() && Follows() && !closed
      modifies this
      ensures Fifo() && Follows() && !closed && replayed == old(replayed) && received == old(received)
      ensures clearedAt == old(clearedAt) && since == old(since)
      ensures offered == old(offered) + [e]
      ensures sent <==> |old(queue)| < capacity
      ensures queue == if sent then old(queue) + [e] else old(queue)
      ensures taken == if sent then old(taken) + [e] else old(taken)
    {
      SubsequenceSnoc(taken, offered, e);
      sent := |queue| < capacity;
      offered := offered + [e];
      if sent {
        queue := queue + [e];
        taken := taken + [e];
        assert Sent() == old(Sent()) + [e];
        assert received + queue == (received + old(queue)) + [e];
      } else {
        assert |Sent()| >= capacity;
      }
    }

    method Receive() returns (e: Entry)
      requires Fifo() && queue != []
      modifies this
      ensures Fifo() && closed == old(closed) && replayed == old(replayed) && offered == old(offered) && taken == old(taken)
      ensures clearedAt == old(clearedAt) && since == old(since)
      ensures e == old(queue)[0] && received == old(received) + [e]
    {
      e := queue[0];
      queue := queue[1..];
      received := received + [e];
    }

    method Close()
      requires !closed
      modifies this`closed
      ensures closed
    {
      closed := true;
    }
  }

  // ---- The manager ----

  /** Deletes in place: everything behind the gap moves up by one. */
  method ShiftOut(a: array<Channel>, i: nat)
    requires i < a.Length
    modifies a
    ensures a[..a.Length - 1] == RemovedAt(old(a[..]), i)
  {
    for k := i to a.Length - 1
      invariant forall j :: 0 <= j < a.Length && !(i <= j < k) ==> a[j] == old(a[j])
      invariant forall j :: i <= j < k ==> a[j] == old(a[j + 1])
    {
      a[k] := a[k + 1];
    }
  }

  /** The position of a channel in a list, or the length when it is not there. */
  function IndexOf(list: seq<Channel>, ch: Channel): (i: nat)
    ensures i <= |list| && (i < |list| ==> list[i] == ch) && (i == |list| <==> ch !in list)
  {
    if list == [] then 0 else if list[0] == ch then 0 else
      assert list == [list[0]] + list[1..];
      1 + IndexOf(list[1..], ch)
  }

  /** An open subscriber of a machine to which `appended` have been appended so far, over all time. */
  ghost predicate Subscriber(ch: Channel, appended: seq<Entry>, bufferSize: nat)
    reads ch
  {
    && !ch.closed && ch.capacity == bufferSize + Slack && ch.Fifo() && ch.Follows()
    && ch.clearedAt <= ch.since <= |appended|
    && ch.replayed == Tail(appended[ch.clearedAt..ch.since], bufferSize)
    && ch.offered == appended[ch.since..]
  }

  ghost predicate ListRight(list: seq<Channel>, appended: seq<Entry>, bufferSize: nat)
    reads list
  {
    forall i :: 0 <= i < |list| ==> Subscriber(list[i], appended, bufferSize)
  }

  lemma ListRightSnoc(list: seq<Channel>, ch: Channel, appended: seq<Entry>, bufferSize: nat)
    requires ListRight(list, appended, bufferSize) && Subscriber(ch, appended, bufferSize)
    ensures ListRight(list + [ch], appended, bufferSize)
  {
  }

  lemma ListRightHead(list: seq<Channel>, appended: seq<Entry>, bufferSize: nat)
    requires list != [] && ListRight(list, appended, bufferSize)
    ensures Subscriber(list[0], appended, bufferSize) && ListRight(list[1..], appended, bufferSize)
  {
  }

  /** The first channel that is still to do, and the rest. */
  lemma NextSplits(subs: seq<Channel>, done: seq<Channel>, todo: seq<Channel>)
    requires subs == done + todo && |done| < |subs|
    requires forall i, k :: 0 <= i < k < |subs| ==> subs[i] != subs[k]
    ensures todo == [subs[|done|]] + todo[1..] && subs == done + [subs[|done|]] + todo[1..]
    ensures subs[|done|] !in done && subs[|done|] !in todo[1..]
  {
    assert forall i :: 0 <= i < |done| ==> subs[i] == done[i];
    assert forall i :: 0 <= i < |todo| ==> subs[|done| + i] == todo[i];
  }

  type Lists = map<MachineId, seq<Channel>>

  /** Every channel is in one list at most, and there once. */
  ghost predicate DistinctLists(m: Lists) {
    forall a, i, b, k | a in m && b in m && 0 <= i < |m[a]| && 0 <= k < |m[b]| :: m[a][i] == m[b][k] ==> a == b && i == k
  }

  ghost predicate Listed(m: Lists, ch: Channel) {
    exists id :: id in m && ch in m[id]
  }

  function ListOf(m: Lists, id: MachineId): seq<Channel> {
    if id in m then m[id] else []
  }

  lemma AddingStaysDistinct(m: Lists, id: MachineId, ch: Channel)
    requires DistinctLists(m) && !Listed(m, ch)
    ensures DistinctLists(m[id := ListOf(m, id) + [ch]])
  {
    var after := m[id := ListOf(m, id) + [ch]];
    forall a, i, b, k | a in after && b in after && 0 <= i < |after[a]| && 0 <= k < |after[b]| && after[a][i] == after[b][k]
      ensures a == b && i == k
    {
      if after[a][i] != ch {
        assert a in m && b in m && m[a][i] == m[b][k];
      } else {
        ListedWhereFound(m);
      }
    }
  }

  lemma ListsAreDisjoint(m: Lists, a: MachineId, b: MachineId)
    requires DistinctLists(m) && a in m && b in m && a != b
    ensures forall ch :: ch in m[a] ==> ch !in m[b]
  {
  }

  lemma ListedWhereFound(m: Lists)
    ensures forall a, i | a in m && 0 <= i < |m[a]| :: Listed(m, m[a][i])
  {
    forall a, i | a in m && 0 <= i < |m[a]|
      ensures Listed(m, m[a][i])
    {
      assert m[a][i] in m[a];
    }
  }

  /** Taking a channel out leaves the others where they are, in their order. */
  lemma RemovingStaysDistinct(m: Lists, id: MachineId, i: nat)
    requires DistinctLists(m) && id in m && i < |m[id]|
    ensures DistinctLists(m[id := RemovedAt(m[id], i)]) && DistinctLists(m - {id})
    ensures m[id][i] !in RemovedAt(m[id], i)
    ensures forall ch :: ch in m[id] && ch != m[id][i] ==> ch in RemovedAt(m[id], i)
  {
    var after := m[id := RemovedAt(m[id], i)];
    forall a, j, b, k | a in after && b in after && 0 <= j < |after[a]| && 0 <= k < |after[b]| && after[a][j] == after[b][k]
      ensures a == b && j == k
    {
      var j' := if a == id && j >= i then j + 1 else j;
      var k' := if b == id && k >= i then k + 1 else k;
      assert m[a][j'] == after[a][j] && m[b][k'] == after[b][k];
    }
    forall ch | ch in m[id] && ch != m[id][i]
      ensures ch in RemovedAt(m[id], i)
    {
      var k :| 0 <= k < |m[id]| && m[id][k] == ch;
      assert RemovedAt(m[id], i)[if k < i then k else k - 1] == ch;
    }
  }

  /** The lists without one channel; an empty list goes. */
  function WithoutAt(m: Lists, id: MachineId, i: nat): Lists
    requires id in m && i < |m[id]|
  {
    if |m[id]| == 1 then m - {id} else m[id := RemovedAt(m[id], i)]
  }

  lemma SameLists(m: Lists, id: MachineId, i: nat, rest: seq<Channel>)
    requires id in m && i < |m[id]| && rest == RemovedAt(m[id], i)
    ensures (if |rest| == 0 then m[id := rest] - {id} else m[id := rest]) == WithoutAt(m, id, i)
  {
  }

  lemma WithoutAtIsDistinct(m: Lists, id: MachineId, i: nat)
    requires DistinctLists(m) && id in m && i < |m[id]|
    ensures DistinctLists(WithoutAt(m, id, i)) && !Listed(WithoutAt(m, id, i), m[id][i])
    ensures forall other :: other in WithoutAt(m, id, i) ==> m[id][i] !in WithoutAt(m, id, i)[other]
  {
    RemovingStaysDistinct(m, id, i);
    forall other | other in m && other != id
      ensures m[id][i] !in m[other]
    {
      ListsAreDisjoint(m, id, other);
    }
  }

  lemma ListRightWithout(list: seq<Channel>, i: nat, appended: seq<Entry>, bufferSize: nat)
    requires i < |list| && ListRight(list, appended, bufferSize)
    ensures ListRight(RemovedAt(list, i), appended, bufferSize)
  {
    var rest := RemovedAt(list, i);
    forall k | 0 <= k < |rest|
      ensures Subscriber(rest[k], appended, bufferSize)
    {
      assert rest[k] == list[if k < i then k else k + 1];
    }
  }

  /** What a channel's queue becomes when an entry is offered to it: a full one misses the entry. */
  function Offered(queue: seq<Entry>, capacity: nat, entry: Entry): seq<Entry> {
    if |queue| < capacity then queue + [entry] else queue
  }

  class LogManager {
    const bufferSize: nat
    var buffers: map<MachineId, seq<Entry>>
    var subscribers: map<MachineId, seq<Channel>>
    ghost var appended: map<MachineId, seq<Entry>>
    ghost var cleared: map<MachineId, nat>

    ghost function Appended(id: MachineId): seq<Entry>
      reads this`appended
    {
      if id in appended then appended[id] else []
    }

    ghost function ClearedAt(id: MachineId): nat
      reads this`cleared
    {
      if id in cleared then cleared[id] else 0
    }

    ghost function BufferOf(id: MachineId): seq<Entry>
      reads this`buffers
    {
      if id in buffers then buffers[id] else []
    }

    ghost function Channels(): set<Channel>
      reads this`subscribers
    {
      set id, i | id in subscribers && 0 <= i < |subscribers[id]| :: subscribers[id][i]
    }

    ghost predicate Distinct()
      reads this`subscribers
    {
      DistinctLists(subscribers)
    }

    /** The buffer of every machine is the last entries since its last clear. */
    ghost predicate BuffersRight()
      reads this`buffers, this`appended, this`cleared
    {
      forall id :: BufferRight(id)
    }

    ghost predicate BufferRight(id: MachineId)
      reads this`buffers, this`appended, this`cleared
    {
      IsBufferOf(BufferOf(id), Appended(id), ClearedAt(id), bufferSize)
    }

    ghost predicate SubscribersRight()
      reads this, Channels()
    {
      forall id :: id in subscribers ==> ListRight(subscribers[id], Appended(id), bufferSize)
    }

    ghost predicate Valid()
      reads this, Channels()
    {
      && bufferSize >= 1 && Distinct() && BuffersRight() && SubscribersRight()
      && forall id :: id in subscribers ==> subscribers[id] != []
    }

    constructor (bufferSize: nat)
      requires bufferSize >= 1
      ensures Valid() && this.bufferSize == bufferSize && Channels() == {}
      ensures forall id :: Appended(id) == [] && BufferOf(id) == []
    {
      this.bufferSize := bufferSize;
      buffers, subscribers, appended, cleared := map[], map[], map[], map[];
    }

    /** Puts an entry into its machine's buffer; the oldest one gives way. */
    method Buffer(id: MachineId, entry: Entry)
      requires bufferSize >= 1 && BuffersRight()
      modifies this`buffers, this`appended
      ensures BuffersRight() && Appended(id) == old(Appended(id)) + [entry]
      ensures BufferOf(id) == Tail(old(BufferOf(id)) + [entry], bufferSize)
      ensures forall other :: other != id ==> Appended(other) == old(Appended(other)) && BufferOf(other) == old(BufferOf(other))
    {
      var buf := if id in buffers then buffers[id] else [];
      assert BufferRight(id);
      BufferMovesOn(buf, Appended(id), ClearedAt(id), bufferSize, entry);
      if |buf| >= bufferSize {
        buf := buf[1..];
      }
      ghost var all := Appended(id) + [entry];
      buffers := buffers[id := buf + [entry]];
      appended := appended[id := all];
      assert Appended(id) == all && BufferOf(id) == buf + [entry];
      OthersBufferRight(id);
    }

    /** The buffers of the other machines are right as they were. */
    twostate lemma OthersBufferRight(id: MachineId)
      requires old(BuffersRight()) && BufferRight(id)
      requires forall other :: other != id ==>
                 BufferOf(other) == old(BufferOf(other)) && Appended(other) == old(Appended(other))
                 && ClearedAt(other) == old(ClearedAt(other))
      ensures BuffersRight()
    {
      forall other
        ensures BufferRight(other)
      {
        if other != id {
          assert old(BufferRight(other));
        }
      }
    }

    method OfferTo(ch: Channel, entry: Entry, ghost before: seq<Entry>, ghost after: seq<Entry>)
      requires Subscriber(ch, before, bufferSize) && after == before + [entry]
      modifies ch
      ensures Subscriber(ch, after, bufferSize) && ch.queue == Offered(old(ch.queue), ch.capacity, entry)
    {
      var _ := ch.Offer(entry);
      assert after[ch.since..] == before[ch.since..] + [entry];
      assert after[ch.clearedAt..ch.since] == before[ch.clearedAt..ch.since];
    }

    method OfferNext(ghost done: seq<Channel>, ch: Channel, ghost todo: seq<Channel>, entry: Entry,
                     ghost before: seq<Entry>, ghost after: seq<Entry>)
      requires ListRight(done, after, bufferSize) && ListRight([ch] + todo, before, bufferSize)
      requires ch !in done && ch !in todo && after == before + [entry]
      modifies ch
      ensures ListRight(done + [ch], after, bufferSize) && ListRight(todo, before, bufferSize)
      ensures ch.queue == Offered(old(ch.queue), ch.capacity, entry)
    {
      ListRightHead([ch] + todo, before, bufferSize);
      assert ([ch] + todo)[0] == ch && ([ch] + todo)[1..] == todo;
      OfferTo(ch, entry, before, after);
      ListRightSnoc(done, ch, after, bufferSize);
    }

    /** Offers the entry to every subscriber of one machine; a full channel misses it. */
    method Notify(subs: seq<Channel>, entry: Entry, ghost before: seq<Entry>)
      requires forall i, k :: 0 <= i < k < |subs| ==> subs[i] != subs[k]
      requires ListRight(subs, before, bufferSize)
      modifies subs
      ensures ListRight(subs, before + [entry], bufferSize)
      ensures forall k :: 0 <= k < |subs| ==> subs[k].queue == Offered(old(subs[k].queue), subs[k].capacity, entry)
    {
      ghost var after := before + [entry];
      ghost var done: seq<Channel>, todo := [], subs;
      for n := 0 to |subs|
        invariant subs == done + todo && |done| == n
        invariant ListRight(done, after, bufferSize) && ListRight(todo, before, bufferSize)
        invariant forall k :: 0 <= k < n ==> subs[k].queue == Offered(old(subs[k].queue), subs[k].capacity, entry)
        invariant forall k :: n <= k < |subs| ==> subs[k].queue == old(subs[k].queue)
      {
        done, todo := OfferOne(subs, n, entry, done, todo, before, after);
      }
      assert done == subs;
    }

    method OfferOne(subs: seq<Channel>, n: nat, entry: Entry, ghost done: seq<Channel>, ghost todo: seq<Channel>,
                    ghost before: seq<Entry>, ghost after: seq<Entry>) returns (ghost d: seq<Channel>, ghost t: seq<Channel>)
      requires forall i, k :: 0 <= i < k < |subs| ==> subs[i] != subs[k]
      requires subs == done + todo && |done| == n < |subs| && after == before + [entry]
      requires ListRight(done, after, bufferSize) && ListRight(todo, before, bufferSize)
      modifies subs[n]
      ensures subs == d + t && |d| == n + 1
      ensures ListRight(d, after, bufferSize) && ListRight(t, before, bufferSize)
      ensures subs[n].queue == Offered(old(subs[n].queue), subs[n].capacity, entry)
    {
      NextSplits(subs, done, todo);
      OfferNext(done, subs[n], todo[1..], entry, before, after);
      d, t := done + [subs[n]], todo[1..];
    }

    method AppendEntry(id: MachineId, entry: Entry)
      requires Valid()
      modifies this`buffers, this`appended, Channels()
      ensures Valid() && Appended(id) == old(Appended(id)) + [entry]
      ensures BufferOf(id) == Tail(old(BufferOf(id)) + [entry], bufferSize)
      ensures forall other :: other != id ==> Appended(other) == old(Appended(other)) && BufferOf(other) == old(BufferOf(other))
      ensures forall ch :: ch in ListOf(subscribers, id) ==> ch.queue == Offered(old(ch.queue), ch.capacity, entry)
      ensures forall other, ch :: other != id && ch in ListOf(subscribers, other) ==> ch.queue == old(ch.queue)
    {
      ghost var before := Appended(id);
      Buffer(id, entry);
      OthersStillRight(id);
      NotifyMachine(id, entry, before);
    }

    /** Buffering an entry of one machine leaves the lists of the others right. */
    twostate lemma OthersStillRight(id: MachineId)
      requires old(SubscribersRight()) && subscribers == old(subscribers) && unchanged(Channels())
      requires forall other :: other != id ==> Appended(other) == old(Appended(other))
      ensures id in subscribers ==> ListRight(subscribers[id], old(Appended(id)), bufferSize)
      ensures forall other :: other in subscribers && other != id ==> ListRight(subscribers[other], Appended(other), bufferSize)
    {
      forall other | other in subscribers
        ensures ListRight(subscribers[other], old(Appended(other)), bufferSize)
      {
        assert old(ListRight(subscribers[other], Appended(other), bufferSize));
      }
    }

    lemma ListsAreChannels()
      ensures forall id, ch :: id in subscribers && ch in subscribers[id] ==> ch in Channels()
    {
    }

    method NotifyMachine(id: MachineId, entry: Entry, ghost before: seq<Entry>)
      requires Distinct() && Appended(id) == before + [entry]
      requires id in subscribers ==> ListRight(subscribers[id], before, bufferSize)
      requires forall other :: other in subscribers && other != id ==> ListRight(subscribers[other], Appended(other), bufferSize)
      modifies Channels()
      ensures SubscribersRight()
      ensures forall ch :: ch in ListOf(subscribers, id) ==> ch.queue == Offered(old(ch.queue), ch.capacity, entry)
      ensures forall other, ch :: other != id && ch in ListOf(subscribers, other) ==> ch.queue == old(ch.queue)
    {
      if id in subscribers {
        ListsAreChannels();
        Notify(subscribers[id], entry, before);
        forall other | other in subscribers && other != id
          ensures ListRight(subscribers[other], Appended(other), bufferSize)
        {
          ListsAreDisjoint(subscribers, other, id);
        }
      }
    }

    method Append(id: MachineId, message: string, now: int)
      requires Valid()
      modifies this`buffers, this`appended, Channels()
      ensures Valid() && Appended(id) == old(Appended(id)) + [Entry(id, "", message, now, false)]
      ensures BufferOf(id) == Tail(old(BufferOf(id)) + [Entry(id, "", message, now, false)], bufferSize)
      ensures forall other :: other != id ==> Appended(other) == old(Appended(other)) && BufferOf(other) == old(BufferOf(other))
      ensures forall ch :: ch in ListOf(subscribers, id) ==> ch.queue == Offered(old(ch.queue), ch.capacity, Entry(id, "", message, now, false))
      ensures forall other, ch :: other != id && ch in ListOf(subscribers, other) ==> ch.queue == old(ch.queue)
    {
      AppendEntry(id, Entry(id, "", message, now, false));
    }

    method AppendWithSource(id: MachineId, source: string, message: string, now: int)
      requires Valid()
      modifies this`buffers, this`appended, Channels()
      ensures Valid() && Appended(id) == old(Appended(id)) + [Entry(id, source, message, now, false)]
      ensures BufferOf(id) == Tail(old(BufferOf(id)) + [Entry(id, source, message, now, false)], bufferSize)
      ensures forall other :: other != id ==> Appended(other) == old(Appended(other)) && BufferOf(other) == old(BufferOf(other))
      ensures forall ch :: ch in ListOf(subscribers, id) ==> ch.queue == Offered(old(ch.queue), ch.capacity, Entry(id, source, message, now, false))
      ensures forall other, ch :: other != id && ch in ListOf(subscribers, other) ==> ch.queue == old(ch.queue)
    {
      AppendEntry(id, Entry(id, source, message, now, false));
    }

    /** A channel filled with the buffer: every send finds room, so none waits. */
    method FilledChannel(buf: seq<Entry>, ghost all: seq<Entry>, ghost clearedAt: nat) returns (ch: Channel)
      requires IsBufferOf(buf, all, clearedAt, bufferSize)
      ensures fresh(ch) && Subscriber(ch, all, bufferSize) && ch.queue == Replayed(buf)
      ensures ch.clearedAt == clearedAt && ch.since == |all|
    {
      ch := new Channel(bufferSize + Slack);
      for n := 0 to |buf|
        invariant ch.Fifo() && !ch.closed && ch.taken == [] && ch.offered == [] && ch.received == []
        invariant ch.replayed == buf[..n] && ch.queue == Replayed(buf[..n]) && fresh(ch)
      {
        ch.Replay(buf[n]);
        assert Replayed(buf[..n + 1]) == Replayed(buf[..n]) + [buf[n].(replay := true)];
      }
      assert buf[..|buf|] == buf;
      ch.clearedAt, ch.since := clearedAt, |all|;
      assert all[clearedAt..|all|] == all[clearedAt..];
    }

    /** A new channel that already holds the buffer, marked as replay, at the end of the machine's list. */
    method Subscribe(id: MachineId) returns (ch: Channel)
      requires Valid()
      modifies this`subscribers
      ensures Valid() && fresh(ch) && ch.queue == Replayed(BufferOf(id))
      ensures ch.clearedAt == ClearedAt(id) && ch.since == |Appended(id)|
      ensures subscribers == old(subscribers)[id := ListOf(old(subscribers), id) + [ch]]
    {
      assert BufferRight(id);
      ch := FilledChannel(if id in buffers then buffers[id] else [], Appended(id), ClearedAt(id));
      AddToList(id, ch);
    }

    method AddToList(id: MachineId, ch: Channel)
      requires Valid() && !Listed(subscribers, ch) && Subscriber(ch, Appended(id), bufferSize)
      modifies this`subscribers
      ensures Valid() && subscribers == old(subscribers)[id := ListOf(old(subscribers), id) + [ch]]
    {
      AddingIsRight(id, ch);
      SetLists(subscribers[id := ListOf(subscribers, id) + [ch]]);
    }

    lemma AddingIsRight(id: MachineId, ch: Channel)
      requires Valid() && !Listed(subscribers, ch) && Subscriber(ch, Appended(id), bufferSize)
      ensures var lists := subscribers[id := ListOf(subscribers, id) + [ch]];
              DistinctLists(lists) && forall a :: a in lists ==> lists[a] != [] && ListRight(lists[a], Appended(a), bufferSize)
    {
      AddingStaysDistinct(subscribers, id, ch);
      ListRightSnoc(ListOf(subscribers, id), ch, Appended(id), bufferSize);
      var lists := subscribers[id := ListOf(subscribers, id) + [ch]];
      forall a | a in lists
        ensures lists[a] != [] && ListRight(lists[a], Appended(a), bufferSize)
      {
        if a != id {
          assert lists[a] == subscribers[a];
        }
      }
    }

    /** Takes a channel out of its machine's list and closes it, once; a list that becomes empty goes. */
    method Unsubscribe(id: MachineId, ch: Channel)
      requires Valid()
      modifies this`subscribers, ch`closed
      ensures Valid()
      ensures ch in ListOf(old(subscribers), id) ==>
                ch.closed && !Listed(subscribers, ch)
                && subscribers == WithoutAt(old(subscribers), id, IndexOf(old(subscribers)[id], ch))
      ensures ch !in ListOf(old(subscribers), id) ==> subscribers == old(subscribers) && ch.closed == old(ch.closed)
    {
      if id !in subscribers {
        return;
      }
      var subs := subscribers[id];
      var i := 0;
      while i < |subs| && subs[i] != ch
        invariant i <= |subs| && IndexOf(subs, ch) == i + IndexOf(subs[i..], ch)
      {
        assert subs[i..][1..] == subs[i + 1..];
        i := i + 1;
      }
      if i < |subs| {
        WithoutAtIsDistinct(subscribers, id, i);
        assert Subscriber(subs[i], Appended(id), bufferSize);
        TakeOut(id, i);
        CloseUnlisted(ch);
      }
    }

    lemma RestIsRight(id: MachineId, i: nat)
      requires Valid() && id in subscribers && i < |subscribers[id]|
      ensures var lists := WithoutAt(subscribers, id, i);
              DistinctLists(lists) && forall a :: a in lists ==> lists[a] != [] && ListRight(lists[a], Appended(a), bufferSize)
    {
      WithoutAtIsDistinct(subscribers, id, i);
      ListRightWithout(subscribers[id], i, Appended(id), bufferSize);
    }

    method TakeOut(id: MachineId, i: nat)
      requires Valid() && id in subscribers && i < |subscribers[id]|
      modifies this`subscribers
      ensures Valid() && subscribers == WithoutAt(old(subscribers), id, i)
    {
      var lists := ListsWithout(id, i);
      assert Valid();
      RestIsRight(id, i);
      SetLists(lists);
    }

    method ListsWithout(id: MachineId, i: nat) returns (lists: Lists)
      requires id in subscribers && i < |subscribers[id]|
      ensures lists == WithoutAt(subscribers, id, i)
    {
      var rest := Shifted(subscribers[id], i);
      SameLists(subscribers, id, i, rest);
      lists := subscribers[id := rest];
      if |rest| == 0 {
        lists := lists - {id};
      }
    }

    method SetLists(lists: Lists)
      requires Valid() && DistinctLists(lists)
      requires forall id :: id in lists ==> lists[id] != [] && ListRight(lists[id], Appended(id), bufferSize)
      modifies this`subscribers
      ensures Valid() && subscribers == lists
    {
      subscribers := lists;
    }

    /** Closing a channel that is in no list disturbs nobody. */
    method CloseUnlisted(ch: Channel)
      requires Valid() && !Listed(subscribers, ch) && !ch.closed
      modifies ch`closed
      ensures Valid() && ch.closed
    {
      ch.Close();
      forall id | id in subscribers
        ensures ListRight(subscribers[id], Appended(id), bufferSize)
      {
        assert old(ListRight(subscribers[id], Appended(id), bufferSize));
        assert ch !in subscribers[id];
      }
    }

    method Shifted(subs: seq<Channel>, i: nat) returns (rest: seq<Channel>)
      requires i < |subs|
      ensures rest == RemovedAt(subs, i)
    {
      var slots := new Channel[|subs|](k requires 0 <= k < |subs| => subs[k]);
      assert slots[..] == subs;
      ShiftOut(slots, i);
      rest := slots[..|subs| - 1];
    }

    method Clear(id: MachineId)
      requires Valid()
      modifies this`buffers, this`cleared
      ensures Valid() && BufferOf(id) == [] && ClearedAt(id) == |Appended(id)|
      ensures forall other :: other != id ==> BufferOf(other) == old(BufferOf(other)) && ClearedAt(other) == old(ClearedAt(other))
    {
      buffers := buffers - {id};
      cleared := cleared[id := |Appended(id)|];
      assert BufferOf(id) == [] && Appended(id)[ClearedAt(id)..] == [];
      OthersBufferRight(id);
    }

    /** A reader takes the next entry from its channel. */
    method Read(id: MachineId, ch: Channel) returns (e: Entry)
      requires Valid() && ch in ListOf(subscribers, id) && ch.queue != []
      modifies ch
      ensures Valid() && e == old(ch.queue)[0] && ch.received == old(ch.received) + [e]
    {
      assert ListRight(subscribers[id], Appended(id), bufferSize);
      e := ReceiveFrom(ch, Appended(id));
      forall a | a in subscribers && a != id
        ensures ListRight(subscribers[a], Appended(a), bufferSize)
      {
        ListsAreDisjoint(subscribers, a, id);
        assert old(ListRight(subscribers[a], Appended(a), bufferSize));
      }
      forall i | 0 <= i < |subscribers[id]|
        ensures Subscriber(subscribers[id][i], Appended(id), bufferSize)
      {
        assert old(Subscriber(subscribers[id][i], Appended(id), bufferSize));
      }
    }

    method ReceiveFrom(ch: Channel, ghost all: seq<Entry>) returns (e: Entry)
      requires Subscriber(ch, all, bufferSize) && ch.queue != []
      modifies ch
      ensures Subscriber(ch, all, bufferSize) && e == old(ch.queue)[0] && ch.received == old(ch.received) + [e]
    {
      e := ch.Receive();
    }

    /** What a subscriber gets: the entries its machine's buffer held when it subscribed, marked as replay, and then
        later entries in the order of their appending, at least the first 64 of them; nothing twice. */
    lemma WhatASubscriberGets(id: MachineId, ch: Channel) returns (at: seq<nat>)
      requires Valid() && ch in ListOf(subscribers, id)
      ensures ch.clearedAt <= ch.since <= |Appended(id)|
      ensures ch.received + ch.queue == Replayed(Tail(Appended(id)[ch.clearedAt..ch.since], bufferSize)) + ch.taken
      ensures |at| == |ch.taken| && forall i, k :: 0 <= i < k < |at| ==> at[i] < at[k]
      ensures forall i :: 0 <= i < |at| ==> ch.since + at[i] < |Appended(id)| && Appended(id)[ch.since + at[i]] == ch.taken[i]
      ensures |Appended(id)| - ch.since <= 64 ==> ch.taken == Appended(id)[ch.since..]
      ensures |Appended(id)| - ch.since > 64 ==> Appended(id)[ch.since..ch.since + 64] <= ch.taken
    {
      assert ListRight(subscribers[id], Appended(id), bufferSize) && Subscriber(ch, Appended(id), bufferSize);
      at := Gets(ch, Appended(id), bufferSize);
    }
  }

  lemma Gets(ch: Channel, all: seq<Entry>, bufferSize: nat) returns (at: seq<nat>)
    requires Subscriber(ch, all, bufferSize)
    ensures |at| == |ch.taken| && forall i, k :: 0 <= i < k < |at| ==> at[i] < at[k]
    ensures forall i :: 0 <= i < |at| ==> ch.since + at[i] < |all| && all[ch.since + at[i]] == ch.taken[i]
    ensures |all| - ch.since <= Slack ==> ch.taken == all[ch.since..]
    ensures |all| - ch.since > Slack ==> all[ch.since..ch.since + Slack] <= ch.taken
  {
    at := SubsequencePositions(ch.taken, ch.offered);
    forall i | 0 <= i < |at|
      ensures ch.since + at[i] < |all| && all[ch.since + at[i]] == ch.taken[i]
    {
      assert ch.offered[at[i]] == all[ch.since..][at[i]];
    }
    if |ch.offered| > Slack {
      assert ch.offered[..Slack] == all[ch.since..ch.since + Slack];
    }
  }
}
