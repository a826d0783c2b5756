/** The reference-counted locks of internal/pixiv/bookmarks.go: one gate per account and artwork, made by the
    first caller and dropped by the last. */
module BookmarkLocks {
  import opened Options

  /** Account and artwork. */
  datatype Key = Key(account: int, illust: int)
  type EntryId = nat
  type ThreadId = nat

  datatype Entry = Entry(key: Key, token: bool, refs: int)

  /** A caller of acquire or of the release it returned. */
  datatype Phase = Waiting(e: EntryId) | Holding(e: EntryId) | Leaving(e: EntryId)

  /** `entries` is the map of the lock table; `all` also remembers entries that were deleted. */
  datatype Table = Table(entries: map<Key, EntryId>, all: map<EntryId, Entry>, threads: map<ThreadId, Phase>)

  datatype Step =
    | Enter(th: ThreadId, key: Key, spare: EntryId)   // up to the select in acquire
    | TakeGate(th: ThreadId)
    | GiveUp(th: ThreadId)                            // ctx.Done wins the select
    | ReturnGate(th: ThreadId)                        // the first half of release
    | Drop(th: ThreadId)                              // refs-- and delete at zero

  predicate Enabled(s: Table, step: Step) {
    match step
    case Enter(th, key, spare) => th !in s.threads && spare !in s.all && (key in s.entries ==> s.entries[key] in s.all)
    case TakeGate(th) => th in s.threads && s.threads[th].Waiting? && s.threads[th].e in s.all && s.all[s.threads[th].e].token
    case GiveUp(th) => th in s.threads && s.threads[th].Waiting?
    case ReturnGate(th) => th in s.threads && s.threads[th].Holding? && s.threads[th].e in s.all
    case Drop(th) => th in s.threads && s.threads[th].Leaving? && s.threads[th].e in s.all
  }

  function Entered(s: Table, key: Key, spare: EntryId): Table {
    if key in s.entries then s
    else s.(entries := s.entries[key := spare], all := s.all[spare := Entry(key, true, 0)])
  }

  function Apply(s: Table, step: Step): Table
    requires Enabled(s, step)
  {
    match step
    case Enter(th, key, spare) =>
      var s1 := Entered(s, key, spare);
      var e := s1.entries[key];
      s1.(all := s1.all[e := s1.all[e].(refs := s1.all[e].refs + 1)], threads := s1.threads[th := Waiting(e)])
    case TakeGate(th) =>
      var e := s.threads[th].e;
      s.(all := s.all[e := s.all[e].(token := false)], threads := s.threads[th := Holding(e)])
    case GiveUp(th) => s.(threads := s.threads[th := Leaving(s.threads[th].e)])
    case ReturnGate(th) =>
      var e := s.threads[th].e;
      s.(all := s.all[e := s.all[e].(token := true)], threads := s.threads[th := Leaving(e)])
    case Drop(th) =>
      var e := s.threads[th].e;
      var entry := s.all[e].(refs := s.all[e].refs - 1);
      s.(all := s.all[e := entry], threads := s.threads - {th},
         entries := if entry.refs == 0 then s.entries - {entry.key} else s.entries)
  }

  // ----- invariant -----

  function Users(s: Table, e: EntryId): set<ThreadId> { set th | th in s.threads && s.threads[th].e == e }

  function Holders(s: Table, e: EntryId): set<ThreadId> { set th | th in s.threads && s.threads[th] == Holding(e) }

  predicate Listed(s: Table, e: EntryId) { e in s.all && s.all[e].key in s.entries && s.entries[s.all[e].key] == e }

  /** Gate tokens and holders make one, references are the callers inside, and the entry is listed
      exactly while there are any. */
  ghost predicate EntryOk(s: Table, e: EntryId)
    requires e in s.all
  {
    && |Holders(s, e)| + (if s.all[e].token then 1 else 0) == 1
    && s.all[e].refs == |Users(s, e)|
    && (Listed(s, e) <==> s.all[e].refs > 0)
  }

  ghost predicate Inv(s: Table) {
    && (forall e :: e in s.all ==> EntryOk(s, e))
    && (forall key :: key in s.entries ==> s.entries[key] in s.all && s.all[s.entries[key]].key == key)
    && (forall th :: th in s.threads ==> s.threads[th].e in s.all)
  }

  const NEW: Table := Table(map[], map[], map[])

  lemma NewInv()
    ensures Inv(NEW)
  {
  }

  lemma Without(a: set<ThreadId>, b: set<ThreadId>, th: ThreadId)
    requires th in a && b == a - {th}
    ensures |b| == |a| - 1
  {
  }

  /** An entry none of whose callers moved. */
  lemma OtherEntry(s: Table, s': Table, e: EntryId, th: ThreadId)
    requires e in s.all && EntryOk(s, e) && e in s'.all && s'.all[e] == s.all[e]
    requires forall u :: u != th ==> (u in s'.threads <==> u in s.threads) && (u in s.threads ==> s'.threads[u] == s.threads[u])
    requires (th in s.threads ==> s.threads[th].e != e) && (th in s'.threads ==> s'.threads[th].e != e)
    requires Listed(s', e) <==> Listed(s, e)
    ensures EntryOk(s', e)
  {
    assert Users(s', e) == Users(s, e) && Holders(s', e) == Holders(s, e);
  }

  /** Every step concerns one caller and one entry; the other entries stay as they are. */
  lemma OneMoves(s: Table, s': Table, e: EntryId, th: ThreadId)
    requires Inv(s) && e in s'.all && EntryOk(s', e)
    requires forall d :: d in s'.all && d != e ==> d in s.all && s'.all[d] == s.all[d] && (Listed(s', d) <==> Listed(s, d))
    requires forall d :: d in s.all ==> d in s'.all
    requires forall u :: u != th ==> (u in s'.threads <==> u in s.threads) && (u in s.threads ==> s'.threads[u] == s.threads[u])
    requires (th in s.threads ==> s.threads[th].e == e) && (th in s'.threads ==> s'.threads[th].e == e)
    requires forall key :: key in s'.entries ==> s'.entries[key] in s'.all && s'.all[s'.entries[key]].key == key
    ensures Inv(s')
  {
    hide Users, Holders, Listed;
    forall d | d in s'.all ensures EntryOk(s', d) {
      if d != e {
        assert EntryOk(s, d);
        OtherEntry(s, s', d, th);
      }
    }
  }

  lemma EnterUsers(s: Table, s': Table, e: EntryId, th: ThreadId)
    requires th !in s.threads && s'.threads == s.threads[th := Waiting(e)]
    ensures |Users(s', e)| == |Users(s, e)| + 1 && |Holders(s', e)| == |Holders(s, e)|
  {
    assert Users(s', e) == Users(s, e) + {th} && th !in Users(s, e);
    assert Holders(s', e) == Holders(s, e);
  }

  /** An entry made by this caller. */
  lemma EnterNew(s: Table, th: ThreadId, key: Key, spare: EntryId)
    requires Inv(s) && Enabled(s, Enter(th, key, spare)) && key !in s.entries
    ensures Inv(Apply(s, Enter(th, key, spare)))
  {
    var s' := Apply(s, Enter(th, key, spare));
    assert s' == Table(s.entries[key := spare], s.all[spare := Entry(key, true, 1)], s.threads[th := Waiting(spare)]);
    assert Users(s, spare) == {} && Holders(s, spare) == {};
    EnterUsers(s, s', spare, th);
    hide Users, Holders;
    assert EntryOk(s', spare);
    hide EntryOk, Apply;
    OneMoves(s, s', spare, th);
  }

  lemma EnterKnown(s: Table, th: ThreadId, key: Key, spare: EntryId)
    requires Inv(s) && Enabled(s, Enter(th, key, spare)) && key in s.entries
    ensures Inv(Apply(s, Enter(th, key, spare)))
  {
    hide Users, Holders;
    var s' := Apply(s, Enter(th, key, spare));
    var e := s.entries[key];
    assert s' == s.(all := s.all[e := s.all[e].(refs := s.all[e].refs + 1)], threads := s.threads[th := Waiting(e)]);
    EnterUsers(s, s', e, th);
    assert EntryOk(s, e) && EntryOk(s', e);
    hide EntryOk, Apply;
    OneMoves(s, s', e, th);
  }

  lemma EnterKeeps(s: Table, th: ThreadId, key: Key, spare: EntryId)
    requires Inv(s) && Enabled(s, Enter(th, key, spare))
    ensures Inv(Apply(s, Enter(th, key, spare)))
  {
    hide Inv, Apply, Enabled;
    if key in s.entries {
      EnterKnown(s, th, key, spare);
    } else {
      EnterNew(s, th, key, spare);
    }
  }

  lemma TakeKeeps(s: Table, th: ThreadId)
    requires Inv(s) && Enabled(s, TakeGate(th))
    ensures Inv(Apply(s, TakeGate(th)))
  {
    var s' := Apply(s, TakeGate(th));
    var e := s.threads[th].e;
    assert Users(s', e) == Users(s, e);
    assert Holders(s', e) == Holders(s, e) + {th} && th !in Holders(s, e);
    assert EntryOk(s, e) && EntryOk(s', e);
    hide Users, Holders, EntryOk;
    OneMoves(s, s', e, th);
  }

  lemma GiveUpKeeps(s: Table, th: ThreadId)
    requires Inv(s) && Enabled(s, GiveUp(th))
    ensures Inv(Apply(s, GiveUp(th)))
  {
    var s' := Apply(s, GiveUp(th));
    var e := s.threads[th].e;
    assert Users(s', e) == Users(s, e) && Holders(s', e) == Holders(s, e);
    assert EntryOk(s, e) && EntryOk(s', e);
    hide Users, Holders, EntryOk;
    OneMoves(s, s', e, th);
  }

  lemma ReturnKeeps(s: Table, th: ThreadId)
    requires Inv(s) && Enabled(s, ReturnGate(th))
    ensures !s.all[s.threads[th].e].token && Inv(Apply(s, ReturnGate(th)))
  {
    var s' := Apply(s, ReturnGate(th));
    var e := s.threads[th].e;
    assert Users(s', e) == Users(s, e);
    Without(Holders(s, e), Holders(s', e), th);
    assert EntryOk(s, e) && EntryOk(s', e);
    hide Users, Holders, EntryOk;
    OneMoves(s, s', e, th);
  }

  lemma DropKeeps(s: Table, th: ThreadId)
    requires Inv(s) && Enabled(s, Drop(th))
    ensures Inv(Apply(s, Drop(th)))
  {
    var s' := Apply(s, Drop(th));
    var e := s.threads[th].e;
    Without(Users(s, e), Users(s', e), th);
    assert Holders(s', e) == Holders(s, e);
    assert th in Users(s, e);
    assert Listed(s, e);
    assert EntryOk(s, e) && EntryOk(s', e);
    hide Users, Holders, EntryOk;
    OneMoves(s, s', e, th);
  }

  lemma StepKeeps(s: Table, step: Step)
    requires Inv(s) && Enabled(s, step)
    ensures Inv(Apply(s, step))
  {
    hide Inv, Enabled, Apply;
    match step {
      case Enter(th, key, spare) => EnterKeeps(s, th, key, spare);
      case TakeGate(th) => TakeKeeps(s, th);
      case GiveUp(th) => GiveUpKeeps(s, th);
      case ReturnGate(th) => ReturnKeeps(s, th);
      case Drop(th) => DropKeeps(s, th);
    }
  }

  // ----- whole runs -----

  ghost predicate IsStep(s: Table, step: Step, s': Table) { Enabled(s, step) && s' == Apply(s, step) }

  ghost predicate IsRun(run: seq<Table>, steps: seq<Step>) {
    |run| == |steps| + 1 && run[0] == NEW && forall i :: 0 <= i < |steps| ==> IsStep(run[i], steps[i], run[i + 1])
  }

  lemma {:induction false} RunKeeps(run: seq<Table>, steps: seq<Step>, i: nat)
    requires IsRun(run, steps) && i < |run|
    ensures Inv(run[i])
  {
    hide Inv, Enabled, Apply;
    if i == 0 {
      NewInv();
    } else {
      RunKeeps(run, steps, i - 1);
      assert IsStep(run[i - 1], steps[i - 1], run[i]);
      StepKeeps(run[i - 1], steps[i - 1]);
    }
  }

  lemma CallerListed(s: Table, th: ThreadId)
    requires Inv(s) && th in s.threads
    ensures Listed(s, s.threads[th].e)
  {
    assert th in Users(s, s.threads[th].e);
    assert EntryOk(s, s.threads[th].e);
  }

  /** At no time do two callers hold the lock of the same account and artwork, even when entries come
      and go and waiters are cancelled. */
  lemma MutualExclusion(run: seq<Table>, steps: seq<Step>, i: nat, t: ThreadId, u: ThreadId)
    requires IsRun(run, steps) && i < |run| && var s := run[i];
      && t in s.threads && u in s.threads && s.threads[t].Holding? && s.threads[u].Holding?
      && s.threads[t].e in s.all && s.threads[u].e in s.all && s.all[s.threads[t].e].key == s.all[s.threads[u].e].key
    ensures t == u
  {
    var s := run[i];
    RunKeeps(run, steps, i);
    hide IsRun;
    CallerListed(s, t);
    CallerListed(s, u);
    var e := s.threads[t].e;
    assert EntryOk(s, e) && t in Holders(s, e) && u in Holders(s, e);
    if t != u {
      assert {t, u} <= Holders(s, e);
      Larger({t, u}, Holders(s, e));
      assert false;
    }
  }

  lemma Larger(a: set<ThreadId>, b: set<ThreadId>)
    requires a <= b
    ensures |a| <= |b|
  {
    assert b == a + (b - a);
  }

  /** The table holds an entry for a key exactly while some caller is inside; nothing leaks. */
  lemma ListedExactly(run: seq<Table>, steps: seq<Step>, i: nat, key: Key)
    requires IsRun(run, steps) && i < |run|
    ensures key in run[i].entries <==>
      exists th :: th in run[i].threads && run[i].threads[th].e in run[i].all && run[i].all[run[i].threads[th].e].key == key
  {
    var s := run[i];
    RunKeeps(run, steps, i);
    hide IsRun;
    if key in s.entries {
      var e := s.entries[key];
      assert EntryOk(s, e) && Listed(s, e) && |Users(s, e)| > 0;
      var th :| th in Users(s, e);
      assert th in s.threads && s.all[s.threads[th].e].key == key;
    }
    if th :| th in s.threads && s.threads[th].e in s.all && s.all[s.threads[th].e].key == key {
      CallerListed(s, th);
    }
  }

  /** Returning the gate never blocks: the holder finds the channel empty. */
  lemma ReturnNeverBlocks(run: seq<Table>, steps: seq<Step>, i: nat, th: ThreadId)
    requires IsRun(run, steps) && i < |run| && Enabled(run[i], ReturnGate(th))
    ensures !run[i].all[run[i].threads[th].e].token
  {
    RunKeeps(run, steps, i);
    hide IsRun;
    ReturnKeeps(run[i], th);
  }

  // ----- the class -----

  class Lock {
    var gate: bool
    var refs: int

    constructor ()
      ensures gate && refs == 0
    {
      gate, refs := true, 0;
    }
  }

  class Locks {
    var entries: map<Key, Lock>

    constructor ()
      ensures entries == map[]
    {
      entries := map[];
    }

    /** `acquire` up to its select. */
    method Enter(key: Key) returns (e: Lock)
      modifies this, entries.Values
      ensures key in entries && entries[key] == e && entries == old(entries)[key := e]
      ensures if key in old(entries) then e == old(entries)[key] && e.refs == old(e.refs) + 1 && e.gate == old(e.gate)
              else fresh(e) && e.refs == 1 && e.gate
      ensures forall l :: l in old(entries).Values && l != e ==> l.refs == old(l.refs) && l.gate == old(l.gate)
    {
      if key !in entries {
        var made := new Lock();
        entries := entries[key := made];
      }
      e := entries[key];
      e.refs := e.refs + 1;
    }

    /** `drop`. */
    method Drop(key: Key, e: Lock)
      requires key in entries && entries[key] == e
      modifies this, e
      ensures e.refs == old(e.refs) - 1 && e.gate == old(e.gate)
      ensures entries == if old(e.refs) == 1 then old(entries) - {key} else old(entries)
    {
      e.refs := e.refs - 1;
      if e.refs == 0 {
        entries := entries - {key};
      }
    }
  }
}
