/** The event hub of internal/inbox/hub.go: a ring buffer that replays the tail of the full log, and
    subscribers that are closed rather than waited for. */
module Hub {
  import opened Options

  datatype Envelope = Envelope(id: string, topic: string, data: string)

  const CHANNEL_CAPACITY: nat := 64

  predicate Matches(topics: set<string>, e: Envelope) { topics == {} || e.topic in topics }

  function Filter(topics: set<string>, log: seq<Envelope>): (r: seq<Envelope>)
    ensures |r| <= |log|
  {
    if log == [] then []
    else
      var front, e := Filter(topics, log[..|log| - 1]), log[|log| - 1];
      if Matches(topics, e) then front + [e] else front
  }

  lemma {:induction false} FilterConcat(topics: set<string>, a: seq<Envelope>, b: seq<Envelope>)
    ensures Filter(topics, a + b) == Filter(topics, a) + Filter(topics, b)
    decreases |b|
  {
    if b == [] {
      assert a + b == a;
    } else {
      hide Matches;
      var n := |b| - 1;
      FilterConcat(topics, a, b[..n]);
      var ab := a + b;
      assert ab[..|ab| - 1] == a + b[..n] && ab[|ab| - 1] == b[n];
    }
  }

  // ----- replay -----

  /** What a client that saw `last` missed: nothing asked, nothing known, or the matching events since. */
  datatype Replay = NoReplay | Evicted | Since(events: seq<Envelope>)

  /** First event of `log` with this id, or the length of the log. */
  function IndexOf(log: seq<Envelope>, id: string): (k: nat)
    ensures k <= |log| && (k < |log| ==> log[k].id == id) && forall i :: 0 <= i < k ==> log[i].id != id
  {
    if log == [] then 0
    else if log[0].id == id then 0
    else
      var k := IndexOf(log[1..], id);
      assert forall i :: 1 <= i < k + 1 ==> log[i] == log[1..][i - 1];
      k + 1
  }

  function Window(log: seq<Envelope>, capacity: nat): (w: seq<Envelope>)
    ensures |w| == if |log| < capacity then |log| else capacity
  {
    if |log| < capacity then log else log[|log| - capacity..]
  }

  /** Replay from the retained window of the full log. */
  function ReplayOf(log: seq<Envelope>, capacity: nat, last: string, topics: set<string>): Replay {
    if last == "" then NoReplay
    else
      var w := Window(log, capacity);
      var k := IndexOf(w, last);
      if k == |w| then Evicted else Since(Filter(topics, w[k + 1..]))
  }

  ghost predicate DistinctIds(log: seq<Envelope>) { forall i, k :: 0 <= i < k < |log| ==> log[i].id != log[k].id }

  /** With distinct ids the replay is the matching log suffix after the event named, or says "evicted"
      exactly when that event is unknown or no longer retained. */
  lemma ReplayIsSuffix(log: seq<Envelope>, capacity: nat, last: string, topics: set<string>, k: nat)
    requires DistinctIds(log) && last != "" && k < |log| && log[k].id == last
    ensures ReplayOf(log, capacity, last, topics) == if k + capacity < |log| then Evicted else Since(Filter(topics, log[k + 1..]))
  {
    hide Filter, IndexOf;
    var w := Window(log, capacity);
    var start := |log| - |w|;
    assert w == log[start..];
    if k < start {
      assert forall i :: 0 <= i < |w| ==> w[i] == log[start + i] && w[i].id != last;
      assert IndexOf(w, last) == |w|;
    } else {
      IndexIs(log, w, start, last, k);
      assert w[k - start + 1..] == log[k + 1..];
    }
  }

  lemma IndexIs(log: seq<Envelope>, w: seq<Envelope>, start: nat, last: string, k: nat)
    requires DistinctIds(log) && start <= k < |log| && w == log[start..] && log[k].id == last
    ensures IndexOf(w, last) == k - start
  {
    hide IndexOf;
    var m := IndexOf(w, last);
    assert w[k - start] == log[k];
    assert m <= k - start;
    assert w[m] == log[start + m] && w[m].id == last;
  }

  lemma UnknownIsEvicted(log: seq<Envelope>, capacity: nat, last: string, topics: set<string>)
    requires last != "" && forall e :: e in log ==> e.id != last
    ensures ReplayOf(log, capacity, last, topics) == Evicted
  {
    var w := Window(log, capacity);
    assert forall i :: 0 <= i < |w| ==> w[i] in log;
  }

  // ----- the ring -----

  lemma Multiple(q: int, m: nat)
    requires m > 0
    ensures !(0 < q * m < m)
  {
    if q <= 0 {
      assert q * m <= 0;
    } else {
      assert q * m >= m;
    }
  }

  lemma ModDistinct(a: nat, b: nat, m: nat)
    requires a < b < a + m
    ensures a % m != b % m
  {
    if a % m == b % m {
      var qa, qb := a / m, b / m;
      assert a == m * qa + a % m && b == m * qb + b % m;
      assert b - a == m * qb - m * qa == (qb - qa) * m;
      Multiple(qb - qa, m);
    }
  }

  class Ring {
    var ring: array<Envelope>
    var count: nat
    ghost var log: seq<Envelope>

    /** The ring holds the last min(count, capacity) events of the log, each in its slot. */
    ghost predicate Valid()
      reads this, ring
    {
      && ring.Length >= 1 && count == |log|
      && forall j :: 0 <= j < count && count <= j + ring.Length ==> ring[j % ring.Length] == log[j]
    }

    constructor (capacity: int)
      ensures Valid() && fresh(ring) && log == [] && ring.Length == if capacity < 1 then 1 else capacity
    {
      var size := if capacity < 1 then 1 else capacity;
      ring := new Envelope[size](_ => Envelope("", "", ""));
      count, log := 0, [];
    }

    /** The locked section of `Publish`. */
    method Append(e: Envelope)
      requires Valid()
      modifies this`count, this`log, ring
      ensures Valid() && log == old(log) + [e] && ring == old(ring)
    {
      ring[count % ring.Length] := e;
      forall j | 0 <= j < count && count + 1 <= j + ring.Length ensures j % ring.Length != count % ring.Length {
        ModDistinct(j, count, ring.Length);
      }
      count := count + 1;
      log := log + [e];
    }

    /** `snapshotSinceLocked`: the scan of the ring agrees with the full log. */
    method SnapshotSince(last: string, topics: set<string>) returns (r: Replay)
      requires Valid()
      ensures r == ReplayOf(log, ring.Length, last, topics)
    {
      if last == "" {
        return NoReplay;
      }
      hide Filter, IndexOf;
      var size := if count < ring.Length then count else ring.Length;
      var found := Find(size, last);
      if found == size {
        return Evicted;
      }
      var events := Collect(size, found, topics);
      r := Since(events);
    }

    /** The slot of a retained event. */
    function At(j: nat): (e: Envelope)
      requires Valid() && j < count <= j + ring.Length
      reads this, ring
      ensures e == log[j]
    {
      ring[j % ring.Length]
    }

    /** Where the retained events stand in the log. */
    lemma Looks(size: nat)
      requires Valid() && size == |Window(log, ring.Length)|
      ensures count == |log| && size <= ring.Length && size <= count && Window(log, ring.Length) == log[count - size..]
    {
    }

    method Find(size: nat, last: string) returns (found: nat)
      requires Valid() && size == |Window(log, ring.Length)|
      ensures found == IndexOf(Window(log, ring.Length), last)
    {
      hide IndexOf, Filter, At, ReplayOf, Matches, DistinctIds, Valid, Window;
      Looks(size);
      ghost var w := Window(log, ring.Length);
      var start := count - size;
      found := 0;
      while found < size
        invariant found <= size && forall i :: 0 <= i < found ==> w[i].id != last
      {
        assert w[found] == log[start + found];
        if At(start + found).id == last {
          return;
        }
        found := found + 1;
      }
    }

    method Collect(size: nat, found: nat, topics: set<string>) returns (replay: seq<Envelope>)
      requires Valid() && found < size == |Window(log, ring.Length)|
      ensures replay == Filter(topics, Window(log, ring.Length)[found + 1..])
    {
      hide At;
      ghost var tail := Window(log, ring.Length)[found + 1..];
      assert count == |log| && size <= ring.Length;
      hide Valid;
      var start := count - size;
      replay := [];
      assert tail[..0] == [];
      for i := found + 1 to size
        invariant replay == Filter(topics, tail[..i - found - 1])
      {
        ghost var n := i - found - 1;
        var e := At(start + i);
        assert e == tail[n];
        assert tail[..n + 1][..n] == tail[..n];
        if Matches(topics, e) {
          replay := replay + [e];
        }
      }
      assert tail[..size - found - 1] == tail;
    }
  }

  // ----- a subscriber -----

  /** The delivery channel of one client; a Go channel panics on a send or a second close after a close. */
  class Subscriber {
    var closed: bool
    var buffer: seq<Envelope>
    var chanClosed: bool
    var panicked: bool

    predicate Valid()
      reads this
    {
      closed == chanClosed && !panicked && |buffer| <= CHANNEL_CAPACITY
    }

    constructor ()
      ensures Valid() && !closed && buffer == []
    {
      closed, chanClosed, panicked, buffer := false, false, false, [];
    }

    method Send(e: Envelope)
      modifies this`buffer, this`panicked
      ensures buffer == old(buffer) + [e] && panicked == (old(panicked) || chanClosed)
    {
      if chanClosed {
        panicked := true;
      }
      buffer := buffer + [e];
    }

    method CloseChannel()
      modifies this`chanClosed, this`panicked
      ensures chanClosed && panicked == (old(panicked) || old(chanClosed))
    {
      if chanClosed {
        panicked := true;
      }
      chanClosed := true;
    }

    /** `deliver` under sendMu. */
    method Deliver(e: Envelope) returns (ok: bool)
      requires Valid()
      modifies this
      ensures Valid()
      ensures ok == (!old(closed) && |old(buffer)| < CHANNEL_CAPACITY)
      ensures buffer == (if ok then old(buffer) + [e] else old(buffer)) && closed == !ok
    {
      if closed {
        return false;
      }
      if |buffer| < CHANNEL_CAPACITY {
        Send(e);
        return true;
      }
      closed := true;
      CloseChannel();
      ok := false;
    }

    /** The first half of `drop`, and the loop body of `Shutdown`. */
    method CloseOnce()
      requires Valid()
      modifies this
      ensures Valid() && closed && buffer == old(buffer)
    {
      if !closed {
        closed := true;
        CloseChannel();
      }
    }
  }

  // ----- the subscriber table -----

  /** The fields of the hub under its lock: ring, subscribers with their topics, and the closed flag. */
  class Registry {
    const ring: Ring
    var subs: map<SubId, set<string>>
    var closed: bool

    ghost predicate Valid()
      reads this, ring, ring.ring
    {
      ring.Valid() && (closed ==> subs == map[])
    }

    constructor (capacity: int)
      ensures Valid() && fresh(ring) && fresh(ring.ring) && ring.log == [] && subs == map[] && !closed
    {
      ring := new Ring(capacity);
      subs, closed := map[], false;
    }

    /** The locked section of `Publish`: the targets are exactly the subscribers whose filter matches. */
    method Publish(e: Envelope) returns (targets: set<SubId>)
      requires Valid()
      modifies ring`count, ring`log, ring.ring
      ensures Valid() && ring.log == old(ring.log) + [e] && ring.ring == old(ring.ring)
      ensures forall u :: u in targets <==> u in subs && Matches(subs[u], e)
    {
      ring.Append(e);
      targets := {};
      var left := subs.Keys;
      while left != {}
        invariant left <= subs.Keys && forall u :: u in targets <==> u in subs && u !in left && Matches(subs[u], e)
        decreases |left|
      {
        var u :| u in left;
        if subs[u] == {} || e.topic in subs[u] {
          targets := targets + {u};
        }
        left := left - {u};
      }
    }

    /** The locked section of `Subscribe`: replay and registration are one step, and none after the shutdown. */
    method Subscribe(u: SubId, topics: set<string>, last: string) returns (accepted: bool, replay: Replay)
      requires Valid() && u !in subs
      modifies this`subs
      ensures Valid() && accepted == !closed
      ensures subs == if accepted then old(subs)[u := topics - {""}] else old(subs)
      ensures replay == if accepted then ReplayOf(ring.log, ring.ring.Length, last, topics - {""}) else NoReplay
    {
      if closed {
        return false, NoReplay;
      }
      var wanted := topics - {""};
      replay := ring.SnapshotSince(last, wanted);
      subs := subs[u := wanted];
      accepted := true;
    }

    /** The locked section of `Shutdown`: the first call takes all subscribers out, later ones find none. */
    method Shutdown() returns (taken: set<SubId>)
      requires Valid()
      modifies this`subs, this`closed
      ensures Valid() && closed && subs == map[] && taken == if old(closed) then {} else old(subs).Keys
    {
      if closed {
        return {};
      }
      closed := true;
      taken := subs.Keys;
      subs := map[];
    }

    method RemoveSub(u: SubId)
      requires Valid()
      modifies this`subs
      ensures Valid() && subs == old(subs) - {u}
    {
      subs := subs - {u};
    }
  }

  // ----- the hub as a whole -----

  type SubId = nat
  type PubId = nat

  /** `sent`: everything ever put into the channel; `taken`: how much of it the client has received;
      `start`: length of the log when it subscribed; `replay`: what it was handed then. */
  datatype Sub = Sub(topics: set<string>, sent: seq<Envelope>, taken: nat, closed: bool, closes: nat, start: nat, last: string, replay: Replay)

  /** A publish between its locked section and the end of its delivery loop. */
  datatype Pub = Pub(index: nat, targets: set<SubId>)

  datatype State = State(capacity: nat, log: seq<Envelope>, known: map<SubId, Sub>, subs: set<SubId>, pubs: map<PubId, Pub>,
                         closed: bool, shutting: set<SubId>, sentAfterClose: bool)

  datatype Step =
    | Publish(p: PubId, e: Envelope)
    | Deliver(p: PubId, u: SubId)
    | PublishDone(p: PubId)
    | Subscribe(u: SubId, topics: set<string>, last: string)
    | Receive(u: SubId)
    | CloseSub(u: SubId)        // the first half of a cancel
    | RemoveSub(u: SubId)       // removeSub of a closed subscriber
    | Shutdown
    | ShutdownCloses(u: SubId)

  predicate Enabled(s: State, step: Step) {
    match step
    case Publish(p, e) => p !in s.pubs
    case Deliver(p, u) => p in s.pubs && u in s.pubs[p].targets && u in s.known && s.pubs[p].index < |s.log|
    case PublishDone(p) => p in s.pubs && s.pubs[p].targets == {}
    case Subscribe(u, _, _) => u !in s.known
    case Receive(u) => u in s.known && s.known[u].taken < |s.known[u].sent|
    case CloseSub(u) => u in s.known
    case RemoveSub(u) => u in s.known && s.known[u].closed
    case Shutdown => true
    case ShutdownCloses(u) => u in s.shutting && u in s.known
  }

  function Close(x: Sub): Sub { if x.closed then x else x.(closed := true, closes := x.closes + 1) }

  function Offer(x: Sub, e: Envelope): Sub {
    if x.closed then x
    else if |x.sent| - x.taken < CHANNEL_CAPACITY then x.(sent := x.sent + [e])
    else Close(x)
  }

  function Apply(s: State, step: Step): State
    requires Enabled(s, step)
  {
    match step
    case Publish(p, e) =>
      s.(log := s.log + [e], pubs := s.pubs[p := Pub(|s.log|, set u | u in s.subs && u in s.known && Matches(s.known[u].topics, e))])
    case Deliver(p, u) =>
      var x := s.known[u];
      var y := Offer(x, s.log[s.pubs[p].index]);
      s.(pubs := s.pubs[p := s.pubs[p].(targets := s.pubs[p].targets - {u})], known := s.known[u := y],
         sentAfterClose := s.sentAfterClose || (x.closes > 0 && y.sent != x.sent))
    case PublishDone(p) => s.(pubs := s.pubs - {p})
    case Subscribe(u, topics, last) =>
      if s.closed then s.(known := s.known[u := Sub(topics, [], 0, true, 1, |s.log|, last, NoReplay)])
      else
        var wanted := topics - {""};
        s.(known := s.known[u := Sub(wanted, [], 0, false, 0, |s.log|, last, ReplayOf(s.log, s.capacity, last, wanted))], subs := s.subs + {u})
    case Receive(u) => s.(known := s.known[u := s.known[u].(taken := s.known[u].taken + 1)])
    case CloseSub(u) => s.(known := s.known[u := Close(s.known[u])])
    case RemoveSub(u) => s.(subs := s.subs - {u})
    case Shutdown => if s.closed then s else s.(closed := true, shutting := s.subs, subs := {})
    case ShutdownCloses(u) => s.(known := s.known[u := Close(s.known[u])], shutting := s.shutting - {u})
  }

  // ----- holds for any interleaving -----

  predicate SubOk(s: State, x: Sub) {
    && x.start <= |s.log| && x.taken <= |x.sent| && |x.sent| - x.taken <= CHANNEL_CAPACITY
    && x.closes == (if x.closed then 1 else 0)
  }

  ghost predicate Safe(s: State) {
    && (forall u :: u in s.known ==> SubOk(s, s.known[u]))
    && s.subs <= s.known.Keys && s.shutting <= s.known.Keys
    && (forall p :: p in s.pubs ==> s.pubs[p].index < |s.log| && s.pubs[p].targets <= s.known.Keys)
    && (s.closed ==> s.subs == {})
    && !s.sentAfterClose
  }

  predicate Init(s: State) {
    s.capacity >= 1 && s.log == [] && s.known == map[] && s.subs == {} && s.pubs == map[] && !s.closed && s.shutting == {} && !s.sentAfterClose
  }

  lemma StepSafe(s: State, step: Step)
    requires Safe(s) && Enabled(s, step)
    ensures Safe(Apply(s, step)) && (s.closed ==> Apply(s, step).closed)
    ensures s.log <= Apply(s, step).log && |Apply(s, step).log| <= |s.log| + 1
  {
    hide ReplayOf, Matches;
  }

  // ----- holds when deliveries are in order -----

  lemma {:induction false} FilterGrows(topics: set<string>, a: seq<Envelope>, b: seq<Envelope>)
    requires a <= b
    ensures Filter(topics, a) <= Filter(topics, b)
  {
    assert b == a + b[|a|..];
    FilterConcat(topics, a, b[|a|..]);
  }

  lemma FilterPast(topics: set<string>, log: seq<Envelope>, start: nat, m: nat, j: nat)
    requires start <= m <= j < |log| && Matches(topics, log[j]) && forall k :: m <= k < j ==> !Matches(topics, log[k])
    ensures Filter(topics, log[start..j + 1]) == Filter(topics, log[start..m]) + [log[j]]
  {
    hide Matches;
    FilterNone(topics, log, start, m, j);
    var tail := log[start..j + 1];
    assert tail[..|tail| - 1] == log[start..j] && tail[|tail| - 1] == log[j];
  }

  lemma {:induction false} FilterNone(topics: set<string>, log: seq<Envelope>, start: nat, m: nat, j: nat)
    requires start <= m <= j <= |log| && forall k :: m <= k < j ==> !Matches(topics, log[k])
    ensures Filter(topics, log[start..j]) == Filter(topics, log[start..m])
    decreases j
  {
    hide Matches;
    if m < j {
      FilterNone(topics, log, start, m, j - 1);
      var tail := log[start..j];
      assert tail[..|tail| - 1] == log[start..j - 1] && tail[|tail| - 1] == log[j - 1];
    }
  }

  /** The event at `k` of the log is still to be delivered to `u`. */
  ghost predicate PendingAt(s: State, u: SubId, k: nat) { exists p :: p in s.pubs && u in s.pubs[p].targets && s.pubs[p].index == k }

  /** The channel carried the matching events up to `m`; the later ones up to `e` are pending, and no others. */
  ghost predicate Covers(s: State, u: SubId, m: nat, e: nat)
    requires u in s.known
  {
    var x := s.known[u];
    && x.start <= m <= e <= |s.log| && x.sent == Filter(x.topics, s.log[x.start..m])
    && (!x.closed ==>
          && (forall k: nat :: PendingAt(s, u, k) <==> m <= k < e && Matches(x.topics, s.log[k]))
          && (u in s.subs ==> e == |s.log|))
  }

  ghost predicate InOrder(s: State, u: SubId) {
    u in s.known ==> exists m: nat, e: nat :: Covers(s, u, m, e)
  }

  /** No two pending publishes stand for the same event. */
  ghost predicate OneEach(s: State) {
    forall p, q :: p in s.pubs && q in s.pubs && s.pubs[p].index == s.pubs[q].index ==> p == q
  }

  /** What has been sent is a prefix of the matching events since the subscription. */
  predicate IsPrefix(s: State, u: SubId) {
    u in s.known ==> s.known[u].start <= |s.log| && s.known[u].sent <= Filter(s.known[u].topics, s.log[s.known[u].start..])
  }

  lemma WindowPrefix(s: State, u: SubId)
    requires InOrder(s, u)
    ensures IsPrefix(s, u)
  {
    hide PendingAt, Filter, Matches;
    if u in s.known {
      var m: nat, e: nat :| Covers(s, u, m, e);
      var x := s.known[u];
      assert s.log[x.start..m] <= s.log[x.start..];
      FilterGrows(x.topics, s.log[x.start..m], s.log[x.start..]);
    }
  }

  /** A delivery to an open subscriber with room takes the oldest publish pending for it. */
  ghost predicate Oldest(s: State, step: Step, u: SubId)
    requires Enabled(s, step)
  {
    step.Deliver? && step.u == u && !s.known[u].closed && |s.known[u].sent| - s.known[u].taken < CHANNEL_CAPACITY ==>
      forall k: nat :: PendingAt(s, u, k) ==> s.pubs[step.p].index <= k
  }

  lemma StepOneEach(s: State, step: Step)
    requires Safe(s) && OneEach(s) && Enabled(s, step)
    ensures OneEach(Apply(s, step))
  {
    hide ReplayOf, Matches;
  }

  /** A step that neither publishes nor touches this subscriber's channel. */
  lemma OrderStays(s: State, s': State, u: SubId)
    requires u in s.known && u in s'.known && InOrder(s, u) && s'.log == s.log
    requires s'.known[u].sent == s.known[u].sent && s'.known[u].topics == s.known[u].topics && s'.known[u].start == s.known[u].start
    requires s.known[u].closed ==> s'.known[u].closed
    requires !s'.known[u].closed ==> (u in s'.subs ==> u in s.subs) && forall k: nat :: PendingAt(s', u, k) <==> PendingAt(s, u, k)
    ensures InOrder(s', u)
  {
    hide PendingAt, Filter, Matches;
    var m: nat, e: nat :| Covers(s, u, m, e);
    assert Covers(s', u, m, e);
  }

  lemma PublishOrder(s: State, p: PubId, ev: Envelope, u: SubId)
    requires Safe(s) && InOrder(s, u) && Enabled(s, Publish(p, ev))
    ensures InOrder(Apply(s, Publish(p, ev)), u)
  {
    if u in s.known {
      var s' := Apply(s, Publish(p, ev));
      var m: nat, e: nat :| Covers(s, u, m, e);
      var x := s.known[u];
      assert s'.log[x.start..m] == s.log[x.start..m];
      PublishPending(s, p, ev, u);
      hide PendingAt, Filter, Matches;
      assert Covers(s', u, m, if u in s.subs then |s'.log| else e);
    }
  }

  lemma PublishPending(s: State, p: PubId, ev: Envelope, u: SubId)
    requires Safe(s) && Enabled(s, Publish(p, ev)) && u in s.known
    ensures var s' := Apply(s, Publish(p, ev));
      forall k: nat :: PendingAt(s', u, k) <==> PendingAt(s, u, k) || (k == |s.log| && u in s.subs && Matches(s.known[u].topics, ev))
    ensures !PendingAt(s, u, |s.log|)
  {
    hide Matches;
    var s' := Apply(s, Publish(p, ev));
    assert forall q :: q in s.pubs ==> q in s'.pubs && s'.pubs[q] == s.pubs[q];
    assert p in s'.pubs && s'.pubs[p].index == |s.log|;
  }

  lemma DeliverPending(s: State, p: PubId, u: SubId, v: SubId)
    requires OneEach(s) && Enabled(s, Deliver(p, u))
    ensures var s' := Apply(s, Deliver(p, u));
      forall k: nat :: PendingAt(s', v, k) <==> PendingAt(s, v, k) && (v == u ==> k != s.pubs[p].index)
    ensures PendingAt(s, u, s.pubs[p].index)
  {
    hide Offer;
    var s' := Apply(s, Deliver(p, u));
    assert forall q :: q in s.pubs <==> q in s'.pubs;
    assert forall q :: q in s.pubs ==> s'.pubs[q].index == s.pubs[q].index;
    forall k: nat | PendingAt(s, v, k) && (v == u ==> k != s.pubs[p].index) ensures PendingAt(s', v, k) {
      var q :| q in s.pubs && v in s.pubs[q].targets && s.pubs[q].index == k;
      assert v in s'.pubs[q].targets;
    }
  }

  /** The oldest pending event goes next. */
  lemma DeliverOrder(s: State, p: PubId, u: SubId)
    requires Safe(s) && OneEach(s) && InOrder(s, u) && Enabled(s, Deliver(p, u)) && Oldest(s, Deliver(p, u), u)
    ensures InOrder(Apply(s, Deliver(p, u)), u)
  {
    var s' := Apply(s, Deliver(p, u));
    var m: nat, e: nat :| Covers(s, u, m, e);
    DeliverPending(s, p, u, u);
    hide PendingAt, Filter, Matches;
    var x, j := s.known[u], s.pubs[p].index;
    if !x.closed && |x.sent| - x.taken < CHANNEL_CAPACITY {
      FilterPast(x.topics, s.log, x.start, m, j);
      assert Covers(s', u, j + 1, e);
    } else {
      assert Covers(s', u, m, e);
    }
  }

  /** A younger one in its place breaks the prefix. */
  lemma YoungerBreaks(s: State, p: PubId, u: SubId)
    requires Safe(s) && InOrder(s, u) && Enabled(s, Deliver(p, u)) && DistinctIds(s.log) && !Oldest(s, Deliver(p, u), u)
    ensures !IsPrefix(Apply(s, Deliver(p, u)), u)
  {
    hide Filter, Matches;
    var x, j := s.known[u], s.pubs[p].index;
    var m: nat, e: nat :| Covers(s, u, m, e);
    assert PendingAt(s, u, j);
    var h := FirstMatch(x.topics, s.log, m, j);
    assert PendingAt(s, u, h);
    var k: nat :| PendingAt(s, u, k) && k < j;
    hide PendingAt;
    FilterPast(x.topics, s.log, x.start, m, h);
    var all := Filter(x.topics, s.log[x.start..]);
    assert s.log[x.start..h + 1] <= s.log[x.start..];
    FilterGrows(x.topics, s.log[x.start..h + 1], s.log[x.start..]);
    assert all[|x.sent|] == s.log[h] && h < j;
    assert (x.sent + [s.log[j]])[|x.sent|] == s.log[j];
  }

  lemma {:induction false} FirstMatch(topics: set<string>, log: seq<Envelope>, m: nat, j: nat) returns (h: nat)
    requires m <= j < |log| && Matches(topics, log[j])
    ensures m <= h <= j && Matches(topics, log[h]) && forall k :: m <= k < h ==> !Matches(topics, log[k])
    decreases j - m
  {
    hide Matches;
    if Matches(topics, log[m]) {
      h := m;
    } else {
      h := FirstMatch(topics, log, m + 1, j);
    }
  }

  lemma SubscribeOrder(s: State, v: SubId, topics: set<string>, last: string, u: SubId)
    requires Safe(s) && InOrder(s, u) && Enabled(s, Subscribe(v, topics, last))
    ensures InOrder(Apply(s, Subscribe(v, topics, last)), u)
  {
    var s' := Apply(s, Subscribe(v, topics, last));
    hide Matches, ReplayOf;
    assert s'.pubs == s.pubs && s'.log == s.log;
    assert forall k: nat :: PendingAt(s', u, k) <==> PendingAt(s, u, k);
    if u == v {
      assert forall k: nat :: !PendingAt(s', u, k);
      assert s.log[|s.log|..|s.log|] == [];
      assert Covers(s', u, |s.log|, |s.log|);
    } else if u in s.known {
      OrderStays(s, s', u);
    }
  }

  lemma OtherOrder(s: State, step: Step, u: SubId)
    requires Safe(s) && InOrder(s, u) && Enabled(s, step) && !step.Publish? && !step.Deliver? && !step.Subscribe?
    ensures InOrder(Apply(s, step), u)
  {
    var s' := Apply(s, step);
    OtherFrame(s, step);
    hide Apply, Enabled, InOrder;
    if u in s'.known {
      OrderStays(s, s', u);
    } else {
      NobodyInOrder(s', u);
    }
  }

  lemma NobodyInOrder(s: State, u: SubId)
    requires u !in s.known
    ensures InOrder(s, u)
  {
  }

  lemma OtherFrame(s: State, step: Step)
    requires Safe(s) && Enabled(s, step) && !step.Publish? && !step.Deliver? && !step.Subscribe?
    ensures var s' := Apply(s, step);
      && s'.log == s.log && s'.subs <= s.subs && s'.known.Keys == s.known.Keys
      && (forall v, k: nat :: PendingAt(s', v, k) <==> PendingAt(s, v, k))
      && forall v :: v in s.known ==>
           && s'.known[v].sent == s.known[v].sent && s'.known[v].topics == s.known[v].topics && s'.known[v].start == s.known[v].start
           && (s.known[v].closed ==> s'.known[v].closed)
  {
    var s' := Apply(s, step);
    assert step.PublishDone? ==> s'.pubs == s.pubs - {step.p};
    assert !step.PublishDone? ==> s'.pubs == s.pubs;
    forall v, k: nat | PendingAt(s, v, k) ensures PendingAt(s', v, k) {
      var p :| p in s.pubs && v in s.pubs[p].targets && s.pubs[p].index == k;
      assert p in s'.pubs;
    }
  }

  lemma StepOrder(s: State, step: Step, u: SubId)
    requires Safe(s) && OneEach(s) && InOrder(s, u) && Enabled(s, step) && Oldest(s, step, u)
    ensures InOrder(Apply(s, step), u)
  {
    hide InOrder, Safe, OneEach;
    match step {
      case Publish(p, e) => PublishOrder(s, p, e, u);
      case Deliver(p, v) =>
        if v == u {
          DeliverOrder(s, p, u);
        } else {
          OthersDelivery(s, p, v, u);
        }
      case Subscribe(v, topics, last) => SubscribeOrder(s, v, topics, last, u);
      case _ => OtherOrder(s, step, u);
    }
  }

  lemma OthersDelivery(s: State, p: PubId, v: SubId, u: SubId)
    requires OneEach(s) && InOrder(s, u) && Enabled(s, Deliver(p, v)) && u != v
    ensures InOrder(Apply(s, Deliver(p, v)), u)
  {
    DeliverPending(s, p, v, u);
    hide PendingAt, Offer;
    if u in s.known {
      OrderStays(s, Apply(s, Deliver(p, v)), u);
    }
  }

  // ----- whole runs -----

  ghost predicate IsStep(s: State, step: Step, s': State) { Enabled(s, step) && s' == Apply(s, step) }

  ghost predicate IsRun(run: seq<State>, steps: seq<Step>) {
    |run| == |steps| + 1 && Init(run[0]) && forall i :: 0 <= i < |steps| ==> IsStep(run[i], steps[i], run[i + 1])
  }

  lemma {:induction false} RunSafe(run: seq<State>, steps: seq<Step>, i: nat)
    requires IsRun(run, steps) && i < |run|
    ensures Safe(run[i])
  {
    if i > 0 {
      RunSafe(run, steps, i - 1);
      assert IsStep(run[i - 1], steps[i - 1], run[i]);
      hide Safe, Enabled, Apply;
      StepSafe(run[i - 1], steps[i - 1]);
    }
  }

  /** Under any interleaving of publishes, cancels and the shutdown, no channel is closed twice or sent
      on after it is closed, and no more than 64 events wait in one. */
  lemma NeverPanics(run: seq<State>, steps: seq<Step>, i: nat, u: SubId)
    requires IsRun(run, steps) && i < |run| && u in run[i].known
    ensures run[i].known[u].closes <= 1 && !run[i].sentAfterClose
    ensures |run[i].known[u].sent| - run[i].known[u].taken <= CHANNEL_CAPACITY
  {
    RunSafe(run, steps, i);
    assert SubOk(run[i], run[i].known[u]);
  }

  /** From the shutdown on, nobody is subscribed. */
  lemma {:induction false} NobodyAfterShutdown(run: seq<State>, steps: seq<Step>, i: nat, k: nat)
    requires IsRun(run, steps) && i <= k < |run| && run[i].closed
    ensures run[k].closed && run[k].subs == {}
    decreases k
  {
    RunSafe(run, steps, k);
    if i < k {
      NobodyAfterShutdown(run, steps, i, k - 1);
      RunSafe(run, steps, k - 1);
      assert IsStep(run[k - 1], steps[k - 1], run[k]);
      hide Enabled, Apply;
      StepSafe(run[k - 1], steps[k - 1]);
    }
  }

  lemma {:induction false} RunOneEach(run: seq<State>, steps: seq<Step>, i: nat)
    requires IsRun(run, steps) && i < |run|
    ensures OneEach(run[i]) && |run| == |steps| + 1
  {
    if i > 0 {
      RunOneEach(run, steps, i - 1);
      RunSafe(run, steps, i - 1);
      assert IsStep(run[i - 1], steps[i - 1], run[i]);
      hide Safe, OneEach, Enabled, Apply;
      StepOneEach(run[i - 1], steps[i - 1]);
    }
  }

  /** Every delivery before moment `i` took the oldest event pending for `u`. */
  ghost predicate OldestUntil(run: seq<State>, steps: seq<Step>, i: nat, u: SubId)
    requires i <= |steps| < |run|
  {
    forall k :: 0 <= k < i ==> Enabled(run[k], steps[k]) && Oldest(run[k], steps[k], u)
  }

  lemma {:induction false} RunInOrder(run: seq<State>, steps: seq<Step>, i: nat, u: SubId)
    requires IsRun(run, steps) && i < |run| == |steps| + 1 && OldestUntil(run, steps, i, u)
    ensures InOrder(run[i], u)
  {
    hide Enabled, Apply, Safe, OneEach, Oldest;
    if i == 0 {
      NobodyInOrder(run[0], u);
    } else {
      RunInOrder(run, steps, i - 1, u);
      RunSafe(run, steps, i - 1);
      RunOneEach(run, steps, i - 1);
      assert IsStep(run[i - 1], steps[i - 1], run[i]);
      hide InOrder;
      StepOrder(run[i - 1], steps[i - 1], u);
    }
  }

  lemma {:induction false} LogGrows(run: seq<State>, steps: seq<Step>, i: nat, k: nat)
    requires IsRun(run, steps) && i <= k < |run|
    ensures run[i].log <= run[k].log
    decreases k
  {
    if i < k {
      LogGrows(run, steps, i, k - 1);
      RunSafe(run, steps, k - 1);
      assert IsStep(run[k - 1], steps[k - 1], run[k]);
      hide Enabled, Apply, Safe;
      StepSafe(run[k - 1], steps[k - 1]);
    }
  }

  /** Up to a moment of any run, what a subscriber has been sent is always a prefix of the matching events since it
      subscribed, if and only if every delivery to it took the oldest event pending for it. */
  lemma {:induction false} StreamExact(run: seq<State>, steps: seq<Step>, i: nat, u: SubId)
    requires IsRun(run, steps) && i < |run| && DistinctIds(run[i].log)
    ensures |run| == |steps| + 1
    ensures (forall k :: 0 <= k <= i ==> IsPrefix(run[k], u)) <==> OldestUntil(run, steps, i, u)
  {
    RunOneEach(run, steps, i);
    hide Enabled, Apply, Safe, OneEach, Oldest, IsPrefix, InOrder;
    if i == 0 {
      RunInOrder(run, steps, 0, u);
      WindowPrefix(run[0], u);
    } else {
      LogGrows(run, steps, i - 1, i);
      StreamExact(run, steps, i - 1, u);
      assert IsStep(run[i - 1], steps[i - 1], run[i]);
      if OldestUntil(run, steps, i, u) {
        RunInOrder(run, steps, i, u);
        WindowPrefix(run[i], u);
      } else if OldestUntil(run, steps, i - 1, u) {
        RunInOrder(run, steps, i - 1, u);
        RunSafe(run, steps, i - 1);
        LastBreaks(run[i - 1], steps[i - 1], u);
      }
    }
  }

  lemma LastBreaks(s: State, step: Step, u: SubId)
    requires Safe(s) && InOrder(s, u) && Enabled(s, step) && DistinctIds(s.log) && !Oldest(s, step, u)
    ensures !IsPrefix(Apply(s, step), u)
  {
    hide Safe, InOrder, IsPrefix, Apply;
    YoungerBreaks(s, step.p, u);
  }

  // ----- publishes that do not overlap -----

  /** A new publish starts only when the previous delivery loop is over. */
  predicate InTurn(s: State, step: Step) { step.Publish? ==> s.pubs == map[] }

  lemma {:induction false} InTurnAlone(run: seq<State>, steps: seq<Step>, i: nat)
    requires IsRun(run, steps) && i < |run| && forall k :: 0 <= k < |steps| ==> InTurn(run[k], steps[k])
    ensures forall p, q :: p in run[i].pubs && q in run[i].pubs ==> p == q
  {
    hide ReplayOf, Matches, Offer;
    if i > 0 {
      InTurnAlone(run, steps, i - 1);
      assert IsStep(run[i - 1], steps[i - 1], run[i]) && InTurn(run[i - 1], steps[i - 1]);
    }
  }

  /** Then at most one event is pending, so every delivery takes the oldest. */
  lemma InTurnIsOldest(run: seq<State>, steps: seq<Step>, i: nat, u: SubId)
    requires IsRun(run, steps) && i < |run| == |steps| + 1 && forall k :: 0 <= k < |steps| ==> InTurn(run[k], steps[k])
    ensures OldestUntil(run, steps, i, u)
  {
    hide Apply;
    forall k | 0 <= k < i ensures Enabled(run[k], steps[k]) && Oldest(run[k], steps[k], u) {
      assert IsStep(run[k], steps[k], run[k + 1]);
      InTurnAlone(run, steps, k);
    }
  }

  /** Each replay was taken from the log as it was at the subscription. */
  ghost predicate Replays(s: State) {
    forall u :: u in s.known ==>
      && s.known[u].start <= |s.log|
      && (s.known[u].replay != NoReplay ==> s.known[u].replay == ReplayOf(s.log[..s.known[u].start], s.capacity, s.known[u].last, s.known[u].topics))
  }

  lemma StepReplays(s: State, step: Step)
    requires Replays(s) && Enabled(s, step)
    ensures Replays(Apply(s, step)) && Apply(s, step).capacity == s.capacity
  {
    hide ReplayOf, Matches, Filter;
    StepKnown(s, step);
    var s' := Apply(s, step);
    hide Apply, Enabled;
    assert s.log[..|s.log|] == s.log;
    assert forall u :: u in s.known ==> s'.log[..s.known[u].start] == s.log[..s.known[u].start];
  }

  predicate SameTerms(x: Sub, y: Sub) { y.start == x.start && y.last == x.last && y.topics == x.topics && y.replay == x.replay }

  predicate NewTerms(s: State, x: Sub) {
    x.start == |s.log| && (x.replay == NoReplay || x.replay == ReplayOf(s.log, s.capacity, x.last, x.topics))
  }

  /** A step keeps what a subscription was made with, and only a subscription adds one. */
  lemma StepKnown(s: State, step: Step)
    requires Enabled(s, step)
    ensures var s' := Apply(s, step);
      && s'.capacity == s.capacity && s.log <= s'.log
      && (forall u :: u in s.known ==> u in s'.known && SameTerms(s.known[u], s'.known[u]))
      && (forall u :: u in s'.known && u !in s.known ==> s'.log == s.log && NewTerms(s, s'.known[u]))
  {
    hide ReplayOf, Matches, Filter;
  }

  lemma {:induction false} RunReplays(run: seq<State>, steps: seq<Step>, i: nat)
    requires IsRun(run, steps) && i < |run|
    ensures Replays(run[i]) && run[i].capacity == run[0].capacity
  {
    if i > 0 {
      RunReplays(run, steps, i - 1);
      assert IsStep(run[i - 1], steps[i - 1], run[i]);
      hide Replays, Enabled, Apply;
      StepReplays(run[i - 1], steps[i - 1]);
    }
  }

  /** As long as deliveries to it are in order, a client that names the event at position `k` of the log is either
      told it was evicted, or what it is replayed followed by what its channel carries is a prefix of the
      matching events after that one: nothing missing, nothing twice, in order. */
  lemma StreamContinues(run: seq<State>, steps: seq<Step>, i: nat, u: SubId, k: nat)
    requires IsRun(run, steps) && i < |run| == |steps| + 1 && OldestUntil(run, steps, i, u)
    requires u in run[i].known && run[i].known[u].replay != NoReplay && DistinctIds(run[i].log)
    requires k < run[i].known[u].start <= |run[i].log| && run[i].log[k].id == run[i].known[u].last != ""
    ensures var x := run[i].known[u];
      if k + run[i].capacity < x.start then x.replay == Evicted
      else x.replay.Since? && x.replay.events + x.sent <= Filter(x.topics, run[i].log[k + 1..])
  {
    RunReplays(run, steps, i);
    hide Filter, ReplayOf, Oldest, Enabled, IsRun, InOrder;
    RunInOrder(run, steps, i, u);
    WindowPrefix(run[i], u);
    Continues(run[i].log, run[i].capacity, run[i].known[u], k);
  }

  /** So it is when publishes do not overlap. */
  lemma StreamIsGapFree(run: seq<State>, steps: seq<Step>, i: nat, u: SubId, k: nat)
    requires IsRun(run, steps) && i < |run| && forall n :: 0 <= n < |steps| ==> InTurn(run[n], steps[n])
    requires u in run[i].known && run[i].known[u].replay != NoReplay && DistinctIds(run[i].log)
    requires k < run[i].known[u].start <= |run[i].log| && run[i].log[k].id == run[i].known[u].last != ""
    ensures var x := run[i].known[u];
      if k + run[i].capacity < x.start then x.replay == Evicted
      else x.replay.Since? && x.replay.events + x.sent <= Filter(x.topics, run[i].log[k + 1..])
  {
    RunOneEach(run, steps, i);
    hide IsRun, Filter, ReplayOf, InTurn, OldestUntil, OneEach;
    InTurnIsOldest(run, steps, i, u);
    StreamContinues(run, steps, i, u, k);
  }

  lemma Continues(log: seq<Envelope>, capacity: nat, x: Sub, k: nat)
    requires DistinctIds(log) && k < x.start <= |log| && log[k].id == x.last != ""
    requires x.replay == ReplayOf(log[..x.start], capacity, x.last, x.topics) && x.sent <= Filter(x.topics, log[x.start..])
    ensures if k + capacity < x.start then x.replay == Evicted
            else x.replay.Since? && x.replay.events + x.sent <= Filter(x.topics, log[k + 1..])
  {
    hide Filter, ReplayOf;
    var seen := log[..x.start];
    assert forall n :: 0 <= n < |seen| ==> seen[n] == log[n];
    ReplayIsSuffix(seen, capacity, x.last, x.topics, k);
    FilterConcat(x.topics, seen[k + 1..], log[x.start..]);
    assert seen[k + 1..] + log[x.start..] == log[k + 1..];
  }

  /** And without a replay the channel alone is such a prefix. */
  lemma LiveStreamIsGapFree(run: seq<State>, steps: seq<Step>, i: nat, u: SubId)
    requires IsRun(run, steps) && i < |run| && forall n :: 0 <= n < |steps| ==> InTurn(run[n], steps[n])
    requires u in run[i].known
    ensures run[i].known[u].start <= |run[i].log|
    ensures run[i].known[u].sent <= Filter(run[i].known[u].topics, run[i].log[run[i].known[u].start..])
  {
    RunOneEach(run, steps, i);
    hide IsRun, Filter, InTurn, OldestUntil, OneEach, InOrder;
    InTurnIsOldest(run, steps, i, u);
    RunInOrder(run, steps, i, u);
    WindowPrefix(run[i], u);
  }

  /** Two overlapping publishes may reach a subscriber in the opposite order. */
  lemma OverlapReorders(s: State, u: SubId, a: Envelope, b: Envelope)
    requires Init(s) && a != b
    ensures var s1 := Apply(s, Subscribe(u, {}, "")); var s2 := Apply(s1, Publish(0, a)); var s3 := Apply(s2, Publish(1, b));
      && Enabled(s3, Deliver(1, u)) && var s4 := Apply(s3, Deliver(1, u));
      && Enabled(s4, Deliver(0, u)) && var s5 := Apply(s4, Deliver(0, u));
      s5.log == [a, b] && s5.known[u].sent == [b, a]
  {
  }
}
