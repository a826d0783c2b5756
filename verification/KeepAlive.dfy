/** frontend/src/app/keep-alive/lru.ts: which page instances stay mounted. */
module KeepAlive {
  import opened Options
  import opened Utf8
  import opened Decimals

  const AT: byte := 0x40

  /** `hiddenAt` is absent while the entry is the active one. */
  datatype Entry = Entry(id: Bytes, key: Bytes, location: int, hiddenAt: Option<int>)

  datatype State = State(entries: seq<Entry>, activeKey: Option<Bytes>, location: int, nextSeq: nat)

  datatype Limits = Limits(max: int, idleTtl: int)

  function Id(key: Bytes, n: nat): Bytes { key + [AT] + Decimal(n) }

  function Initial(location: int, key: Option<Bytes>): State {
    State(if key.None? then [] else [Entry(Id(key.value, 0), key.value, location, None)], key, location, 1)
  }

  /** The active entry is stamped hidden when another page is shown. */
  function Hide(e: Entry, active: Option<Bytes>, key: Option<Bytes>, now: int): Entry {
    if Some(e.key) == active && Some(e.key) != key then e.(hiddenAt := Some(now)) else e
  }

  predicate Fresh(e: Entry, now: int, idleTtl: int) { e.hiddenAt.None? || now - e.hiddenAt.value <= idleTtl }

  function HideAll(es: seq<Entry>, active: Option<Bytes>, key: Option<Bytes>, now: int): (r: seq<Entry>)
    ensures |r| == |es| && forall i :: 0 <= i < |es| ==> r[i] == Hide(es[i], active, key, now)
  {
    seq(|es|, i requires 0 <= i < |es| => Hide(es[i], active, key, now))
  }

  function DropStale(es: seq<Entry>, now: int, idleTtl: int): (r: seq<Entry>)
    ensures forall e :: e in r <==> e in es && Fresh(e, now, idleTtl)
  {
    if es == [] then [] else (if Fresh(es[0], now, idleTtl) then [es[0]] else []) + DropStale(es[1..], now, idleTtl)
  }

  function IndexOf(es: seq<Entry>, key: Bytes): (i: nat)
    ensures i <= |es| && (i < |es| ==> es[i].key == key) && forall j :: 0 <= j < i ==> es[j].key != key
  {
    if es == [] || es[0].key == key then 0
    else
      var k := IndexOf(es[1..], key);
      assert forall j :: 1 <= j < k + 1 ==> es[j] == es[1..][j - 1];
      k + 1
  }

  /** The target becomes active: its entry is reused or a new one is appended. */
  function Activate(es: seq<Entry>, location: int, key: Option<Bytes>, n: nat): (seq<Entry>, nat) {
    if key.None? then (es, n)
    else
      var i := IndexOf(es, key.value);
      if i < |es| then (es[i := es[i].(location := location, hiddenAt := None)], n)
      else (es + [Entry(Id(key.value, n), key.value, location, None)], n + 1)
  }

  /** The first entry hidden earliest, or the length when none is hidden. */
  function Oldest(es: seq<Entry>): (i: nat)
    ensures i <= |es|
    ensures i < |es| ==> es[i].hiddenAt.Some? && forall j :: 0 <= j < |es| && es[j].hiddenAt.Some? ==> es[i].hiddenAt.value <= es[j].hiddenAt.value
    ensures i == |es| ==> forall j :: 0 <= j < |es| ==> es[j].hiddenAt.None?
  {
    OldestUpTo(es, |es|)
  }

  function OldestUpTo(es: seq<Entry>, n: nat): (i: nat)
    requires n <= |es|
    ensures i < n || i == |es|
    ensures i < n ==> es[i].hiddenAt.Some? && forall j :: 0 <= j < n && es[j].hiddenAt.Some? ==> es[i].hiddenAt.value <= es[j].hiddenAt.value
    ensures i == |es| && n < |es| ==> forall j :: 0 <= j < n ==> es[j].hiddenAt.None?
    ensures i == |es| && n == |es| ==> forall j :: 0 <= j < n ==> es[j].hiddenAt.None?
  {
    if n == 0 then |es|
    else
      var i := OldestUpTo(es, n - 1);
      if es[n - 1].hiddenAt.Some? && (i == |es| || es[n - 1].hiddenAt.value < es[i].hiddenAt.value) then n - 1 else i
  }

  function Without(es: seq<Entry>, i: nat): (r: seq<Entry>)
    requires i < |es|
    ensures |r| == |es| - 1
  {
    es[..i] + es[i + 1..]
  }

  function Evict(es: seq<Entry>, max: int): seq<Entry>
    decreases |es|
  {
    if |es| <= max || Oldest(es) == |es| then es else Evict(Without(es, Oldest(es)), max)
  }

  /** The entries just before eviction. */
  function Shown(s: State, location: int, key: Option<Bytes>, now: int, o: Limits): (seq<Entry>, nat) {
    Activate(DropStale(HideAll(s.entries, s.activeKey, key, now), now, o.idleTtl), location, key, s.nextSeq)
  }

  function Next(s: State, location: int, key: Option<Bytes>, now: int, o: Limits): State {
    var (es, n) := Shown(s, location, key, now, o);
    State(Evict(es, o.max), key, location, n)
  }

  method NextState(s: State, location: int, key: Option<Bytes>, now: int, o: Limits) returns (r: State)
    ensures r == Next(s, location, key, now, o)
  {
    var shown := Shown(s, location, key, now, o);
    var entries := shown.0;
    while |entries| > o.max
      invariant Evict(entries, o.max) == Evict(shown.0, o.max)
      decreases |entries|
    {
      var oldest := |entries|;
      for i := 0 to |entries|
        invariant oldest == OldestUpTo(entries, i)
      {
        if entries[i].hiddenAt.Some? && (oldest == |entries| || entries[i].hiddenAt.value < entries[oldest].hiddenAt.value) {
          oldest := i;
        }
      }
      if oldest == |entries| {
        break;
      }
      entries := entries[..oldest] + entries[oldest + 1..];
    }
    r := State(entries, key, location, shown.1);
  }

  // ----- invariant -----

  /** Entry `e` was minted with some number below `n`. */
  ghost predicate Minted(e: Entry, n: nat) { exists k: nat :: k < n && e.id == Id(e.key, k) }

  lemma IdInjective(a: Bytes, n: nat, b: Bytes, m: nat)
    requires Id(a, n) == Id(b, m)
    ensures a == b && n == m
  {
    NumeralAtEnd(a, b, AT, n, m);
  }

  // ----- sub-sequences: survivors keep their relative order -----

  /** Strictly increasing positions in `b` at which the elements of `a` stand. */
  ghost predicate Picks(at: seq<nat>, a: seq<Entry>, b: seq<Entry>) {
    && |at| == |a|
    && (forall i :: 0 <= i < |at| ==> at[i] < |b| && a[i] == b[at[i]])
    && (forall i, j :: 0 <= i < j < |at| ==> at[i] < at[j])
  }

  lemma {:induction false} DropPicks(es: seq<Entry>, now: int, ttl: int) returns (at: seq<nat>)
    ensures Picks(at, DropStale(es, now, ttl), es)
    decreases |es|
  {
    hide Fresh;
    if es == [] {
      at := [];
    } else {
      var rest := DropPicks(es[1..], now, ttl);
      var shifted := seq(|rest|, i requires 0 <= i < |rest| => rest[i] + 1);
      at := if Fresh(es[0], now, ttl) then [0] + shifted else shifted;
    }
  }

  /** Removing one element keeps order, uniqueness and everything else. */
  lemma WithoutPicks(es: seq<Entry>, i: nat) returns (at: seq<nat>)
    requires i < |es|
    ensures Picks(at, Without(es, i), es)
  {
    at := seq(|es| - 1, j requires 0 <= j < |es| - 1 => if j < i then j else j + 1);
  }

  lemma PicksCompose(f: seq<nat>, g: seq<nat>, a: seq<Entry>, b: seq<Entry>, c: seq<Entry>) returns (at: seq<nat>)
    requires Picks(f, a, b) && Picks(g, b, c)
    ensures Picks(at, a, c)
  {
    at := seq(|f|, i requires 0 <= i < |f| => g[f[i]]);
  }

  /** Hidden, and no later than any hidden entry of `es`. */
  ghost predicate HiddenFirst(e: Entry, es: seq<Entry>) {
    e.hiddenAt.Some? && forall f :: f in es && f.hiddenAt.Some? ==> e.hiddenAt.value <= f.hiddenAt.value
  }

  /** What eviction leaves: a sub-sequence; everything dropped was hidden, no later than any hidden survivor. */
  lemma {:induction false} EvictPicks(es: seq<Entry>, max: int) returns (at: seq<nat>)
    ensures Picks(at, Evict(es, max), es)
    ensures forall e :: e in es && e !in Evict(es, max) ==> HiddenFirst(e, Evict(es, max))
    ensures |Evict(es, max)| <= max || forall e :: e in Evict(es, max) ==> e.hiddenAt.None?
    decreases |es|
  {
    hide Oldest;
    var i := Oldest(es);
    if |es| <= max || i == |es| {
      at := seq(|es|, j => j);
    } else {
      var rest := Without(es, i);
      var inner := EvictPicks(rest, max);
      var outer := WithoutPicks(es, i);
      at := PicksCompose(inner, outer, Evict(es, max), rest, es);
      OldestGoes(es, i, max);
    }
  }

  lemma OldestGoes(es: seq<Entry>, i: nat, max: int)
    requires i < |es| && Evict(es, max) == Evict(Without(es, i), max) && es[i].hiddenAt.Some?
    requires forall j :: 0 <= j < |es| && es[j].hiddenAt.Some? ==> es[i].hiddenAt.value <= es[j].hiddenAt.value
    requires forall e :: e in Evict(Without(es, i), max) ==> e in Without(es, i)
    requires forall e :: e in Without(es, i) && e !in Evict(Without(es, i), max) ==> HiddenFirst(e, Evict(Without(es, i), max))
    ensures forall e :: e in es && e !in Evict(es, max) ==> HiddenFirst(e, Evict(es, max))
  {
    hide Evict;
    assert es == es[..i] + [es[i]] + es[i + 1..];
    assert forall e :: e in es ==> e == es[i] || e in Without(es, i);
    assert forall e :: e in Without(es, i) ==> e in es;
  }

  // ----- the steps keep the invariant -----

  /** Keys and ids are pairwise different, and every id is minted below `n`. */
  ghost predicate Unique(es: seq<Entry>, n: nat) {
    && (forall i, j :: 0 <= i < j < |es| ==> es[i].key != es[j].key && es[i].id != es[j].id)
    && (forall i :: 0 <= i < |es| ==> Minted(es[i], n))
  }

  lemma PicksUnique(at: seq<nat>, a: seq<Entry>, b: seq<Entry>, n: nat)
    requires Picks(at, a, b) && Unique(b, n)
    ensures Unique(a, n)
  {
    hide Minted;
  }

  ghost predicate ActiveOnly(es: seq<Entry>, active: Option<Bytes>) {
    && (forall e :: e in es ==> (e.hiddenAt.None? <==> Some(e.key) == active))
    && (active.Some? ==> exists e :: e in es && e.key == active.value)
  }

  lemma HideUnique(es: seq<Entry>, active: Option<Bytes>, key: Option<Bytes>, now: int, n: nat)
    requires Unique(es, n)
    ensures Unique(HideAll(es, active, key, now), n)
  {
    var hs := HideAll(es, active, key, now);
    forall i | 0 <= i < |hs| ensures Minted(hs[i], n) {
      assert Minted(es[i], n);
      var k: nat :| k < n && es[i].id == Id(es[i].key, k);
      assert hs[i].id == Id(hs[i].key, k);
    }
  }

  lemma ActivateUnique(es: seq<Entry>, location: int, key: Option<Bytes>, n: nat)
    requires Unique(es, n)
    ensures Unique(Activate(es, location, key, n).0, Activate(es, location, key, n).1)
  {
    var (fs, m) := Activate(es, location, key, n);
    hide IndexOf, Id;
    forall i | 0 <= i < |fs| ensures Minted(fs[i], m) {
      if i < |es| {
        assert Minted(es[i], n);
        var k: nat :| k < n && es[i].id == Id(es[i].key, k);
        assert fs[i].id == Id(fs[i].key, k) && k < m;
      } else {
        assert fs[i].id == Id(fs[i].key, n) && n < m;
      }
    }
    if |fs| > |es| {
      forall i | 0 <= i < |es| ensures es[i].key != fs[|es|].key && es[i].id != fs[|es|].id {
        assert Minted(es[i], n);
        var k: nat :| k < n && es[i].id == Id(es[i].key, k);
        if es[i].id == fs[|es|].id {
          IdInjective(es[i].key, k, key.value, n);
        }
      }
    }
  }

  /** After activation exactly the target is shown. */
  lemma ActivateShows(es: seq<Entry>, location: int, key: Option<Bytes>, n: nat)
    requires forall i, j :: 0 <= i < j < |es| ==> es[i].key != es[j].key
    requires forall e :: e in es && Some(e.key) != key ==> e.hiddenAt.Some?
    ensures ActiveOnly(Activate(es, location, key, n).0, key)
  {
    var (fs, m) := Activate(es, location, key, n);
    hide Id;
    forall e | e in fs ensures e.hiddenAt.None? <==> Some(e.key) == key {
      var i :| 0 <= i < |fs| && fs[i] == e;
      assert i < |es| ==> es[i] in es && fs[i].key == es[i].key;
    }
    if key.Some? {
      var i := IndexOf(es, key.value);
      assert fs[i].key == key.value && fs[i] in fs;
    }
  }

  lemma HiddenBefore(s: State, key: Option<Bytes>, now: int, ttl: int)
    requires ActiveOnly(s.entries, s.activeKey)
    ensures forall e :: e in DropStale(HideAll(s.entries, s.activeKey, key, now), now, ttl) && Some(e.key) != key ==> e.hiddenAt.Some?
  {
    var hs := HideAll(s.entries, s.activeKey, key, now);
    forall e | e in hs && Some(e.key) != key ensures e.hiddenAt.Some? {
      var i :| 0 <= i < |hs| && hs[i] == e;
      assert s.entries[i] in s.entries;
    }
  }

  ghost predicate Good(s: State) { Unique(s.entries, s.nextSeq) && ActiveOnly(s.entries, s.activeKey) }

  lemma InitialGood(location: int, key: Option<Bytes>)
    ensures Good(Initial(location, key))
  {
    if key.Some? {
      var e := Initial(location, key).entries[0];
      assert e.id == Id(e.key, 0);
      assert Minted(e, 1);
    }
  }

  lemma ShownGood(s: State, location: int, key: Option<Bytes>, now: int, o: Limits)
    requires Good(s)
    ensures Unique(Shown(s, location, key, now, o).0, Shown(s, location, key, now, o).1)
    ensures ActiveOnly(Shown(s, location, key, now, o).0, key)
  {
    var hs := HideAll(s.entries, s.activeKey, key, now);
    var ds := DropStale(hs, now, o.idleTtl);
    HideUnique(s.entries, s.activeKey, key, now, s.nextSeq);
    HiddenBefore(s, key, now, o.idleTtl);
    var at := DropPicks(hs, now, o.idleTtl);
    PicksUnique(at, ds, hs, s.nextSeq);
    hide Activate, Minted, Picks;
    ActivateUnique(ds, location, key, s.nextSeq);
    ActivateShows(ds, location, key, s.nextSeq);
  }

  /** Unique keys and ids, exactly the active entry un-hidden, at most `max` entries. */
  lemma NextGood(s: State, location: int, key: Option<Bytes>, now: int, o: Limits)
    requires Good(s)
    ensures Good(Next(s, location, key, now, o))
    ensures o.max >= 1 ==> |Next(s, location, key, now, o).entries| <= o.max
  {
    var (es, n) := Shown(s, location, key, now, o);
    ShownGood(s, location, key, now, o);
    hide Shown, Evict, Unique, ActiveOnly;
    EvictGood(es, n, key, o.max);
  }

  lemma EvictGood(es: seq<Entry>, n: nat, key: Option<Bytes>, max: int)
    requires Unique(es, n) && ActiveOnly(es, key)
    ensures Unique(Evict(es, max), n) && ActiveOnly(Evict(es, max), key)
    ensures max >= 1 ==> |Evict(es, max)| <= max
  {
    hide Evict, Minted, Oldest;
    var at := EvictPicks(es, max);
    PicksUnique(at, Evict(es, max), es, n);
    hide Unique, Picks;
    var r := Evict(es, max);
    assert forall e :: e in r ==> e in es;
    if key.Some? {
      var e :| e in es && e.key == key.value;
      assert e in r;
    }
    if |r| > 1 {
      AtMostOneShown(r, key);
    }
  }

  lemma AtMostOneShown(r: seq<Entry>, key: Option<Bytes>)
    requires |r| > 1 && r[0].key != r[1].key && forall e :: e in r ==> (e.hiddenAt.None? <==> Some(e.key) == key)
    ensures !forall e :: e in r ==> e.hiddenAt.None?
  {
    assert r[0] in r && r[1] in r;
  }

  /** Where each entry after a navigation stood before it, in the same order; a minted one comes last.
      What was evicted had been hidden no later than any hidden survivor, and what was dropped as stale strictly earlier. */
  lemma Survivors(s: State, location: int, key: Option<Bytes>, now: int, o: Limits) returns (at: seq<nat>)
    requires Good(s)
    ensures var r := Next(s, location, key, now, o);
      && |at| == |r.entries| && (forall i, j :: 0 <= i < j < |at| ==> at[i] < at[j])
      && (forall i :: 0 <= i < |at| ==>
            if at[i] < |s.entries| then r.entries[i].id == s.entries[at[i]].id && r.entries[i].key == s.entries[at[i]].key
            else at[i] == |s.entries| && key.Some? && r.entries[i].id == Id(key.value, s.nextSeq))
      && (forall e :: e in Shown(s, location, key, now, o).0 && e !in r.entries ==> HiddenFirst(e, r.entries))
      && (forall e :: e in HideAll(s.entries, s.activeKey, key, now) && !Fresh(e, now, o.idleTtl) ==> StaleEarlier(e, r.entries))
  {
    StaleBefore(s, location, key, now, o);
    var hs := HideAll(s.entries, s.activeKey, key, now);
    var ds := DropStale(hs, now, o.idleTtl);
    var (es, n) := Shown(s, location, key, now, o);
    var g := DropPicks(hs, now, o.idleTtl);
    var f := EvictPicks(es, o.max);
    hide Evict, Id, DropStale, IndexOf;
    at := seq(|f|, i requires 0 <= i < |f| => if f[i] < |ds| then g[f[i]] else |s.entries|);
  }

  ghost predicate StaleEarlier(e: Entry, r: seq<Entry>) {
    e.hiddenAt.Some? && forall x :: x in r && x.hiddenAt.Some? ==> e.hiddenAt.value < x.hiddenAt.value
  }

  lemma StaleBefore(s: State, location: int, key: Option<Bytes>, now: int, o: Limits)
    ensures forall e :: e in HideAll(s.entries, s.activeKey, key, now) && !Fresh(e, now, o.idleTtl) ==>
      StaleEarlier(e, Next(s, location, key, now, o).entries)
  {
    var ds := DropStale(HideAll(s.entries, s.activeKey, key, now), now, o.idleTtl);
    var (es, n) := Shown(s, location, key, now, o);
    var at := EvictPicks(es, o.max);
    hide Evict, DropStale, IndexOf, Id;
    assert forall x :: x in es && x.hiddenAt.Some? ==> x in ds;
    assert forall x :: x in Evict(es, o.max) ==> x in es;
  }

  // ----- whole navigations -----

  datatype Visit = Visit(location: int, key: Option<Bytes>, now: int, limits: Limits)

  function Go(s: State, v: Visit): State { Next(s, v.location, v.key, v.now, v.limits) }

  ghost predicate IsRun(run: seq<State>, visits: seq<Visit>) {
    && |run| == |visits| + 1 && (exists location, key :: run[0] == Initial(location, key))
    && forall i :: 0 <= i < |visits| ==> run[i + 1] == Go(run[i], visits[i])
  }

  lemma {:induction false} RunGood(run: seq<State>, visits: seq<Visit>, i: nat)
    requires IsRun(run, visits) && i < |run|
    ensures Good(run[i])
    ensures i > 0 && visits[i - 1].limits.max >= 1 ==> |run[i].entries| <= visits[i - 1].limits.max
  {
    if i == 0 {
      var location, key :| run[0] == Initial(location, key);
      InitialGood(location, key);
    } else {
      RunGood(run, visits, i - 1);
      hide Good, Next;
      assert run[i] == Go(run[i - 1], visits[i - 1]);
      NextGood(run[i - 1], visits[i - 1].location, visits[i - 1].key, visits[i - 1].now, visits[i - 1].limits);
    }
  }

  ghost predicate HasId(s: State, id: Bytes) { exists e :: e in s.entries && e.id == id }

  /** A navigation keeps ids or mints the next one. */
  lemma NextIds(s: State, v: Visit, id: Bytes)
    requires Good(s) && HasId(Go(s, v), id)
    ensures HasId(s, id) || (v.key.Some? && id == Id(v.key.value, s.nextSeq))
    ensures s.nextSeq <= Go(s, v).nextSeq
  {
    NextSeqGrows(s, v);
    var at := Survivors(s, v.location, v.key, v.now, v.limits);
    var r := Go(s, v);
    hide Next, Id, Shown;
    var e :| e in r.entries && e.id == id;
    var i :| 0 <= i < |r.entries| && r.entries[i] == e;
    if at[i] < |s.entries| {
      assert s.entries[at[i]] in s.entries;
    }
  }

  lemma NextSeqGrows(s: State, v: Visit)
    ensures s.nextSeq <= Go(s, v).nextSeq <= s.nextSeq + 1
  {
    hide Evict, DropStale, IndexOf;
  }

  lemma {:induction false} SeqGrows(run: seq<State>, visits: seq<Visit>, i: nat, k: nat)
    requires IsRun(run, visits) && i <= k < |run|
    ensures run[i].nextSeq <= run[k].nextSeq
    decreases k
  {
    if i < k {
      SeqGrows(run, visits, i, k - 1);
      assert run[k] == Go(run[k - 1], visits[k - 1]);
      hide Go;
      NextSeqGrows(run[k - 1], visits[k - 1]);
    }
  }

  /** An id that has left never comes back: a page shown again gets a new id and is mounted afresh. */
  lemma {:induction false} IdsNeverReturn(run: seq<State>, visits: seq<Visit>, i: nat, j: nat, k: nat, id: Bytes)
    requires IsRun(run, visits) && i <= j <= k < |run| && HasId(run[i], id) && !HasId(run[j], id)
    ensures !HasId(run[k], id)
    decreases k
  {
    if j < k {
      IdsNeverReturn(run, visits, i, j, k - 1, id);
      RunGood(run, visits, i);
      RunGood(run, visits, k - 1);
      SeqGrows(run, visits, i, k - 1);
      assert run[k] == Go(run[k - 1], visits[k - 1]);
      hide Go, Next, IsRun;
      if HasId(run[k], id) {
        NextIds(run[k - 1], visits[k - 1], id);
        OldId(run[i], id, visits[k - 1].key.value, run[k - 1].nextSeq);
      }
    }
  }

  lemma OldId(s: State, id: Bytes, key: Bytes, n: nat)
    requires Good(s) && HasId(s, id) && s.nextSeq <= n
    ensures id != Id(key, n)
  {
    var e :| e in s.entries && e.id == id;
    var i :| 0 <= i < |s.entries| && s.entries[i] == e;
    assert Minted(s.entries[i], s.nextSeq);
    var k: nat :| k < s.nextSeq && e.id == Id(e.key, k);
    if id == Id(key, n) {
      IdInjective(e.key, k, key, n);
    }
  }
}
