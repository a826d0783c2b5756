/** frontend/src/lib/pagination.ts: what a pager knows of a list that never tells its length. */
module Pagination {
  import opened Options

  datatype Outcome = More | Last | Empty

  /** What one fetched page says; `next` is the cursor of the following page, if the list has cursors. */
  datatype Observation = Observation(page: nat, outcome: Outcome, next: Option<int>)

  datatype Frontier = Frontier(knownMax: nat, ceiling: Option<nat>, cursors: map<nat, int>)

  const INITIAL: Frontier := Frontier(1, None, map[])

  function Max(a: int, b: int): int { if a > b then a else b }
  function Min(a: int, b: int): int { if a < b then a else b }

  function Truncate(f: Frontier, knownMax: nat, ceiling: nat): Frontier {
    Frontier(knownMax, Some(ceiling), map p | p in f.cursors && p <= knownMax :: f.cursors[p])
  }

  function Advance(f: Frontier, o: Observation): Frontier {
    match o.outcome
    case More =>
      Frontier(Max(f.knownMax, o.page + 1),
               if f.ceiling.Some? && f.ceiling.value <= o.page then None else f.ceiling,
               if o.next.Some? then f.cursors[o.page + 1 := o.next.value] else f.cursors)
    case Last => Truncate(f, o.page, o.page)
    case Empty =>
      var end := Max(1, o.page - 1);
      Truncate(f, Min(f.knownMax, end), Min(if f.ceiling.Some? then f.ceiling.value else end, end))
  }

  function Fold(os: seq<Observation>): Frontier {
    if os == [] then INITIAL else Advance(Fold(os[..|os| - 1]), os[|os| - 1])
  }

  // ----- whatever is observed -----

  predicate Sane(f: Frontier) {
    && f.knownMax >= 1 && (f.ceiling.Some? ==> f.knownMax <= f.ceiling.value)
    && forall p :: p in f.cursors ==> p <= f.knownMax
  }

  /** Whatever pages say, in whatever order: 1 <= knownMax <= ceiling, and no cursor points past knownMax. */
  lemma {:induction false} AlwaysSane(os: seq<Observation>)
    requires forall i :: 0 <= i < |os| ==> os[i].page >= 1
    ensures Sane(Fold(os))
  {
    if os != [] {
      AlwaysSane(os[..|os| - 1]);
    }
  }

  // ----- observations of one list -----

  /** A list of `pages` non-empty pages; `cursor` gives the cursor of the page after each, if any.
      `dangling`: the last of them points at a further page, which turns out empty. */
  datatype List = List(pages: nat, cursor: nat -> Option<int>, dangling: bool) {
    function LastPage(): nat { if pages == 0 then 1 else pages }

    function Observe(p: nat): Observation {
      if p < pages || (p == pages && dangling) then Observation(p, More, cursor(p))
      else Observation(p, if p == pages then Last else Empty, None)
    }
  }

  function Observed(l: List, ps: seq<nat>): (os: seq<Observation>)
    ensures |os| == |ps| && forall i :: 0 <= i < |ps| ==> os[i] == l.Observe(ps[i])
  {
    seq(|ps|, i requires 0 <= i < |ps| => l.Observe(ps[i]))
  }

  predicate KnownMaxIs(l: List, seen: set<nat>, k: nat) {
    if l.pages in seen then k == l.pages
    else (k == 1 || exists p :: p in seen && p < l.pages && p + 1 == k) && forall p :: p in seen && p < l.pages ==> p + 1 <= k
  }

  predicate CeilingIs(l: List, seen: set<nat>, c: Option<nat>) {
    if l.pages in seen then c == Some(l.pages)
    else if c.None? then forall p :: p in seen ==> p < l.pages
    else (exists p :: p in seen && p > l.pages && c.value == Max(1, p - 1)) && forall p :: p in seen && p > l.pages ==> c.value <= Max(1, p - 1)
  }

  ghost predicate CursorsAre(l: List, seen: set<nat>, cs: map<nat, int>) {
    forall q: nat :: CursorAt(cs, q) == if q >= 1 && q - 1 in seen && q - 1 < l.pages then l.cursor(q - 1) else None
  }

  function CursorAt(cs: map<nat, int>, q: nat): Option<int> { if q in cs then Some(cs[q]) else None }

  /** What the set of pages seen determines, regardless of order and repetition. */
  ghost predicate Knows(l: List, seen: set<nat>, f: Frontier) {
    KnownMaxIs(l, seen, f.knownMax) && CeilingIs(l, seen, f.ceiling) && CursorsAre(l, seen, f.cursors)
  }

  lemma KnowsOne(l: List, seen: set<nat>, a: Frontier, b: Frontier)
    requires Knows(l, seen, a) && Knows(l, seen, b)
    ensures a == b
  {
    forall q: nat ensures CursorAt(a.cursors, q) == CursorAt(b.cursors, q) {
    }
    assert forall q: nat :: q in a.cursors <==> CursorAt(a.cursors, q).Some?;
    assert forall q: nat :: q in b.cursors <==> CursorAt(b.cursors, q).Some?;
    assert a.cursors == b.cursors;
  }

  lemma KnowsStep(l: List, seen: set<nat>, f: Frontier, p: nat)
    requires !l.dangling && Knows(l, seen, f) && Sane(f) && p >= 1 && 0 !in seen
    ensures Knows(l, seen + {p}, Advance(f, l.Observe(p)))
  {
    CursorsStep(l, seen, f, p);
    hide CursorsAre;
  }

  lemma CursorsStep(l: List, seen: set<nat>, f: Frontier, p: nat)
    requires !l.dangling && Knows(l, seen, f) && Sane(f) && p >= 1 && 0 !in seen
    ensures CursorsAre(l, seen + {p}, Advance(f, l.Observe(p)).cursors)
  {
    var g := Advance(f, l.Observe(p));
    forall q: nat
      ensures CursorAt(g.cursors, q) == if q >= 1 && q - 1 in seen + {p} && q - 1 < l.pages then l.cursor(q - 1) else None
    {
      assert CursorAt(f.cursors, q) == if q >= 1 && q - 1 in seen && q - 1 < l.pages then l.cursor(q - 1) else None;
      if p >= l.pages && q in f.cursors {
        assert q <= l.pages && q <= f.knownMax;
      }
    }
  }

  function SeenPages(ps: seq<nat>): set<nat> { set i | 0 <= i < |ps| :: ps[i] }

  lemma {:induction false} FoldKnows(l: List, ps: seq<nat>)
    requires !l.dangling && forall i :: 0 <= i < |ps| ==> ps[i] >= 1
    ensures Knows(l, SeenPages(ps), Fold(Observed(l, ps))) && Sane(Fold(Observed(l, ps)))
  {
    var os := Observed(l, ps);
    AlwaysSane(os);
    if ps != [] {
      var n := |ps| - 1;
      FoldKnows(l, ps[..n]);
      assert Observed(l, ps[..n]) == os[..n];
      assert SeenPages(ps) == SeenPages(ps[..n]) + {ps[n]} by {
        assert forall i :: 0 <= i < n ==> ps[..n][i] == ps[i];
      }
      hide Knows, Advance;
      KnowsStep(l, SeenPages(ps[..n]), Fold(os[..n]), ps[n]);
    }
  }

  /** The pages seen contradict each other: the last one points at a page that was seen empty. */
  predicate Clash(l: List, seen: set<nat>) { l.dangling && l.pages in seen && l.pages + 1 in seen }

  /** A list without dangling end that would say the same on these pages. */
  function AsSeen(l: List, seen: set<nat>): List {
    List(if l.dangling && l.pages in seen then l.pages + 1 else l.pages, l.cursor, false)
  }

  lemma SeenAlike(l: List, ps: seq<nat>)
    requires !Clash(l, SeenPages(ps)) && 0 !in SeenPages(ps)
    ensures Observed(l, ps) == Observed(AsSeen(l, SeenPages(ps)), ps)
    ensures forall i :: 0 <= i < |ps| ==> ps[i] >= 1
  {
    assert forall i :: 0 <= i < |ps| ==> ps[i] in SeenPages(ps);
  }

  lemma OrderIrrelevant(l: List, ps: seq<nat>, qs: seq<nat>)
    requires SeenPages(ps) == SeenPages(qs) && 0 !in SeenPages(ps) && !Clash(l, SeenPages(ps))
    ensures Fold(Observed(l, ps)) == Fold(Observed(l, qs))
  {
    SeenAlike(l, ps);
    SeenAlike(l, qs);
    var m := AsSeen(l, SeenPages(ps));
    FoldKnows(m, ps);
    FoldKnows(m, qs);
    KnowsOne(m, SeenPages(ps), Fold(Observed(m, ps)), Fold(Observed(m, qs)));
  }

  /** The pages of a set one after the other. */
  lemma {:induction false} Listed(seen: set<nat>) returns (ps: seq<nat>)
    ensures SeenPages(ps) == seen
  {
    ps := [];
    if seen != {} {
      var p :| p in seen;
      var rest := Listed(seen - {p});
      ps := rest + [p];
      SeenMore(rest, p);
    }
  }

  lemma SeenMore(ps: seq<nat>, p: nat)
    ensures SeenPages(ps + [p]) == SeenPages(ps) + {p}
  {
    assert (ps + [p])[|ps|] == p;
    assert forall i :: 0 <= i < |ps| ==> (ps + [p])[i] == ps[i];
  }

  lemma LastSeen(l: List, ps: seq<nat>, p: nat)
    ensures Fold(Observed(l, ps + [p])) == Advance(Fold(Observed(l, ps)), l.Observe(p))
  {
    assert Observed(l, ps + [p])[..|ps|] == Observed(l, ps);
  }

  /** The pages seen last decide. */
  lemma OrderMatters(l: List, seen: set<nat>) returns (ps: seq<nat>, qs: seq<nat>)
    requires Clash(l, seen) && 0 !in seen
    ensures SeenPages(ps) == SeenPages(qs) == seen
    ensures Fold(Observed(l, ps)).knownMax <= l.pages < Fold(Observed(l, qs)).knownMax
  {
    var rest := Listed(seen);
    ps, qs := rest + [l.pages + 1], rest + [l.pages];
    SeenMore(rest, l.pages + 1);
    SeenMore(rest, l.pages);
    assert SeenPages(ps) == seen && SeenPages(qs) == seen;
    LastSeen(l, rest, l.pages + 1);
    LastSeen(l, rest, l.pages);
  }

  /** For pages of one list the result depends only on which pages were seen, not on order or repetition,
      if and only if the last page and the empty page it points at were not both among them. */
  lemma OrderExact(l: List, seen: set<nat>)
    requires 0 !in seen
    ensures (forall ps, qs :: SeenPages(ps) == seen && SeenPages(qs) == seen ==> Fold(Observed(l, ps)) == Fold(Observed(l, qs)))
      <==> !Clash(l, seen)
  {
    if Clash(l, seen) {
      var ps, qs := OrderMatters(l, seen);
      assert Fold(Observed(l, ps)) != Fold(Observed(l, qs));
    } else {
      forall ps, qs | SeenPages(ps) == seen && SeenPages(qs) == seen ensures Fold(Observed(l, ps)) == Fold(Observed(l, qs)) {
        OrderIrrelevant(l, ps, qs);
      }
    }
  }

  // ----- what the pager shows -----

  datatype Pager = Pager(current: int, knownMax: nat, lastPage: Option<nat>, hint: Option<int>)

  function PagerOf(f: Frontier, current: int, o: Option<Observation>, hint: Option<int>): Pager {
    var m := if o.Some? then Advance(f, o.value) else f;
    var last := if m.ceiling.Some? && m.ceiling.value <= m.knownMax then Some(m.knownMax) else None;
    var capped := if hint.Some? && last.None? then Some(if m.ceiling.Some? then Min(hint.value, m.ceiling.value) else hint.value) else None;
    Pager(current, m.knownMax, last, if capped.Some? && capped.value > m.knownMax then capped else None)
  }

  function Upper(s: Pager): int {
    if s.lastPage.Some? then s.lastPage.value else Max(s.knownMax, if s.hint.Some? then s.hint.value else 0)
  }

  // ----- the true end -----

  /** Page `a` was seen, and page `b` not since. */
  predicate Since(ps: seq<nat>, a: nat, b: nat) {
    exists i :: 0 <= i < |ps| && ps[i] == a && forall j :: i < j < |ps| ==> ps[j] != b
  }

  /** The page two behind the last one was seen empty while the one right behind it did not count as empty,
      and that one has not been seen since. */
  predicate Misled(ps: seq<nat>, n: nat) {
    exists i :: 0 <= i < |ps| && ps[i] == n + 2 && !Since(ps[..i], n + 1, n) && forall j :: i < j < |ps| ==> ps[j] != n + 1
  }

  lemma SinceStep(ps: seq<nat>, p: nat, a: nat, b: nat)
    requires a != b
    ensures Since(ps + [p], a, b) <==> p == a || (p != b && Since(ps, a, b))
  {
    var qs := ps + [p];
    if p == a {
      assert qs[|ps|] == a;
    }
    if i :| 0 <= i < |ps| && ps[i] == a && forall j :: i < j < |ps| ==> ps[j] != b {
      assert qs[i] == a;
      if p != b {
        assert forall j :: i < j < |qs| ==> qs[j] != b;
      }
    }
    if i :| 0 <= i < |qs| && qs[i] == a && forall j :: i < j < |qs| ==> qs[j] != b {
      if i < |ps| {
        assert ps[i] == a && qs[|ps|] == p && forall j :: i < j < |ps| ==> ps[j] == qs[j];
      }
    }
  }

  lemma MisledStep(ps: seq<nat>, p: nat, n: nat)
    ensures Misled(ps + [p], n) <==> (p == n + 2 && !Since(ps, n + 1, n)) || (p != n + 1 && Misled(ps, n))
  {
    hide Since;
    var qs := ps + [p];
    assert qs[..|ps|] == ps;
    assert forall i :: 0 <= i < |ps| ==> qs[..i] == ps[..i];
    if i :| 0 <= i < |qs| && qs[i] == n + 2 && !Since(qs[..i], n + 1, n) && forall j :: i < j < |qs| ==> qs[j] != n + 1 {
      if i < |ps| {
        assert ps[i] == n + 2 && qs[|ps|] == p && forall j :: i < j < |ps| ==> ps[j] == qs[j];
      }
    }
    if i :| 0 <= i < |ps| && ps[i] == n + 2 && !Since(ps[..i], n + 1, n) && forall j :: i < j < |ps| ==> ps[j] != n + 1 {
      if p != n + 1 {
        assert qs[i] == n + 2 && forall j :: i < j < |qs| ==> qs[j] != n + 1;
      }
    }
    if p == n + 2 && !Since(ps, n + 1, n) {
      assert qs[|ps|] == n + 2;
    }
  }

  /** The frontier on a list whose last page dangles, after any visits. */
  predicate Dangles(f: Frontier, ps: seq<nat>, n: nat) {
    && f.knownMax <= n + 1 && (f.knownMax == n + 1 <==> Since(ps, n, n + 1))
    && (f.ceiling.Some? ==> f.ceiling.value >= n)
    && (f.ceiling == Some(n) <==> Since(ps, n + 1, n))
    && (f.ceiling == Some(n + 1) <==> Misled(ps, n))
  }

  lemma DanglesStep(l: List, f: Frontier, ps: seq<nat>, p: nat)
    requires l.dangling && l.pages >= 1 && p >= 1 && Dangles(f, ps, l.pages)
    ensures Dangles(Advance(f, l.Observe(p)), ps + [p], l.pages)
  {
    hide Since, Misled;
    SinceStep(ps, p, l.pages, l.pages + 1);
    SinceStep(ps, p, l.pages + 1, l.pages);
    MisledStep(ps, p, l.pages);
  }

  lemma {:induction false} FoldDangles(l: List, ps: seq<nat>)
    requires l.dangling && l.pages >= 1 && forall i :: 0 <= i < |ps| ==> ps[i] >= 1
    ensures Dangles(Fold(Observed(l, ps)), ps, l.pages)
  {
    hide Dangles, Advance;
    if ps == [] {
      NothingDangles(l);
    } else {
      var k := |ps| - 1;
      FoldDangles(l, ps[..k]);
      assert ps == ps[..k] + [ps[k]];
      LastSeen(l, ps[..k], ps[k]);
      hide Fold;
      DanglesStep(l, Fold(Observed(l, ps[..k])), ps[..k], ps[k]);
    }
  }

  lemma NothingDangles(l: List)
    requires l.pages >= 1
    ensures Dangles(Fold(Observed(l, [])), [], l.pages)
  {
  }

  /** For every list and every sequence of visits. The confirmed pages go past the true last one if and only if
      the list dangles, its last page was seen, and the empty one behind it was not seen since. A reported last
      page is wrong if and only if, moreover, the page two behind was seen empty at a moment when the one in
      between did not count as empty, and that one was not seen since. */
  lemma TrueEndExact(l: List, ps: seq<nat>, current: int, hint: Option<int>)
    requires forall i :: 0 <= i < |ps| ==> ps[i] >= 1
    ensures var s := PagerOf(Fold(Observed(l, ps)), current, None, hint); var past := l.dangling && l.pages >= 1 && Since(ps, l.pages, l.pages + 1);
      && s.knownMax >= 1
      && (s.knownMax > l.LastPage() <==> past)
      && (s.lastPage.Some? && s.lastPage.value != l.LastPage() <==> past && Misled(ps, l.pages))
  {
    AlwaysSane(Observed(l, ps));
    if l.dangling && l.pages >= 1 {
      FoldDangles(l, ps);
      hide Since, Misled, Fold;
    } else {
      var m := List(l.pages, l.cursor, false);
      assert Observed(l, ps) == Observed(m, ps);
      FoldKnows(m, ps);
      hide CursorsAre, Since, Misled, Fold;
    }
  }

  /** When the last page is reported at all. Without a dangling end: once it was seen, or an empty page right
      behind a known one. With one: once the empty page behind it was seen and not forgotten, with all pages up
      to the last known; or wrongly. */
  lemma EndReported(l: List, ps: seq<nat>, current: int, hint: Option<int>)
    requires forall i :: 0 <= i < |ps| ==> ps[i] >= 1
    ensures var s := PagerOf(Fold(Observed(l, ps)), current, None, hint); var n := l.pages;
      s.lastPage.Some? <==>
        if l.dangling && n >= 1 then (Since(ps, n + 1, n) && s.knownMax == n) || (Since(ps, n, n + 1) && Misled(ps, n))
        else n in SeenPages(ps)
             || (s.knownMax == l.LastPage() && exists p :: p in SeenPages(ps) && p > n && Max(1, p - 1) == l.LastPage())
  {
    hide Fold, Since, Misled, KnownMaxIs, CeilingIs, CursorsAre;
    AlwaysSane(Observed(l, ps));
    if l.dangling && l.pages >= 1 {
      FoldDangles(l, ps);
      BothSince(ps, l.pages);
    } else {
      var m := List(l.pages, l.cursor, false);
      assert Observed(l, ps) == Observed(m, ps);
      FoldKnows(m, ps);
      EndKnown(m, SeenPages(ps), Fold(Observed(m, ps)), current, hint);
    }
  }

  lemma EndKnown(l: List, seen: set<nat>, f: Frontier, current: int, hint: Option<int>)
    requires !l.dangling && Sane(f) && KnownMaxIs(l, seen, f.knownMax) && CeilingIs(l, seen, f.ceiling)
    ensures var s := PagerOf(f, current, None, hint);
      s.lastPage.Some? <==> l.pages in seen || (s.knownMax == l.LastPage() && exists p :: p in seen && p > l.pages && Max(1, p - 1) == l.LastPage())
  {
  }

  lemma BothSince(ps: seq<nat>, n: nat)
    ensures !(Since(ps, n, n + 1) && Since(ps, n + 1, n))
  {
  }

  /** An input for the wrong report: the last page, then a stale link two pages behind it. */
  lemma StaleLinkMisleads(l: List)
    requires l.dangling && l.pages >= 1
    ensures PagerOf(Fold(Observed(l, [l.pages, l.pages + 2])), 1, None, None).lastPage == Some(l.pages + 1)
  {
    var n := l.pages;
    var ps := [n, n + 2];
    assert ps[0] == n && ps[1] == n + 2 && ps[..1] == [n];
    assert Since(ps, n, n + 1) && !Since(ps[..1], n + 1, n) && Misled(ps, n);
    FoldDangles(l, ps);
  }

  /** When the last page and the empty one behind it were not both seen, only the set of pages seen matters. */
  lemma TrueEndBySet(l: List, ps: seq<nat>, current: int, hint: Option<int>)
    requires l.dangling && l.pages >= 1 && 0 !in SeenPages(ps) && !Clash(l, SeenPages(ps))
    ensures var s := PagerOf(Fold(Observed(l, ps)), current, None, hint); var seen := SeenPages(ps);
      && (s.knownMax > l.LastPage() <==> l.pages in seen)
      && (s.lastPage.Some? && s.lastPage.value != l.LastPage() <==> l.pages in seen && l.pages + 2 in seen)
  {
    hide Fold, Since, Misled, Advance;
    assert forall i :: 0 <= i < |ps| ==> ps[i] in SeenPages(ps);
    TrueEndExact(l, ps, current, hint);
    SinceBySet(ps, l.pages);
    if l.pages + 1 !in SeenPages(ps) {
      MisledBySet(ps, l.pages);
    }
  }

  lemma SinceBySet(ps: seq<nat>, n: nat)
    requires n !in SeenPages(ps) || n + 1 !in SeenPages(ps)
    ensures Since(ps, n, n + 1) <==> n in SeenPages(ps)
  {
    assert forall i :: 0 <= i < |ps| ==> ps[i] in SeenPages(ps);
    if n in SeenPages(ps) {
      var i :| 0 <= i < |ps| && ps[i] == n;
    }
  }

  lemma MisledBySet(ps: seq<nat>, n: nat)
    requires n + 1 !in SeenPages(ps)
    ensures Misled(ps, n) <==> n + 2 in SeenPages(ps)
  {
    assert forall i :: 0 <= i < |ps| ==> ps[i] in SeenPages(ps);
    if n + 2 in SeenPages(ps) {
      var i :| 0 <= i < |ps| && ps[i] == n + 2;
      assert forall j :: 0 <= j < i ==> ps[..i][j] == ps[j];
    }
  }

  // ----- the items -----

  datatype Item = Page(n: int) | Ellipsis(after: int, before: int)

  const WINDOW := 2

  predicate InWindow(s: Pager, p: int) { s.current - WINDOW <= p <= s.current + WINDOW }

  predicate Anchor(s: Pager, p: int) { 1 <= p <= Upper(s) && (p == 1 || p == Upper(s) || InWindow(s, p)) }

  predicate Increasing(ps: seq<int>) { forall i, k :: 0 <= i < k < |ps| ==> ps[i] < ps[k] }

  /** `pages`: the anchors within bounds, deduplicated and sorted. */
  method Anchors(s: Pager) returns (pages: seq<int>)
    requires Upper(s) >= 1
    ensures Increasing(pages) && forall p :: p in pages <==> Anchor(s, p)
  {
    pages := if Upper(s) == 1 then [1] else [1, Upper(s)];
    var p := s.current - WINDOW;
    while p <= s.current + WINDOW
      invariant s.current - WINDOW <= p <= s.current + WINDOW + 1 && Increasing(pages)
      invariant forall q :: q in pages <==> 1 <= q <= Upper(s) && (q == 1 || q == Upper(s) || s.current - WINDOW <= q < p)
    {
      if 1 <= p <= Upper(s) && p !in pages {
        pages := Placed(pages, p);
      }
      p := p + 1;
    }
  }

  method Placed(ps: seq<int>, p: int) returns (out: seq<int>)
    requires Increasing(ps) && p !in ps
    ensures Increasing(out) && forall q :: q in out <==> q in ps || q == p
  {
    var i := 0;
    while i < |ps| && ps[i] < p
      invariant 0 <= i <= |ps| && forall k :: 0 <= k < i ==> ps[k] < p
    {
      i := i + 1;
    }
    out := ps[..i] + [p] + ps[i..];
  }

  function LastShown(items: seq<Item>): int { if items != [] && items[|items| - 1].Page? then items[|items| - 1].n else 0 }

  /** Pages from 1 on, each the successor of the one before or behind an ellipsis that hides at least two. */
  predicate Chain(items: seq<Item>) {
    (items != [] ==> items[0] == Page(1)) && forall i :: 0 < i < |items| ==> Follows(items[i - 1], items[i])
  }

  predicate Follows(x: Item, y: Item) {
    match y
    case Page(n) => x == Page(n - 1) || (x.Ellipsis? && x.before == n)
    case Ellipsis(a, b) => x == Page(a) && b - a >= 3
  }

  lemma ChainGrows(items: seq<Item>, x: Item)
    requires Chain(items) && items != [] && Follows(items[|items| - 1], x)
    ensures Chain(items + [x])
  {
  }

  method BuildPageItems(s: Pager) returns (out: seq<Item>)
    ensures if Upper(s) < 1 then out == [] else out != [] && Chain(out) && out[|out| - 1] == Page(Upper(s))
    ensures forall p :: Anchor(s, p) ==> Page(p) in out
    ensures |out| <= 9
  {
    if Upper(s) < 1 {
      return [];
    }
    var pages := Anchors(s);
    FirstLast(s, pages);
    AnchorCount(s, pages);
    hide Chain, Upper;
    out := [Page(pages[0])];
    StartChain();
    var i := 1;
    ghost var gaps: nat := 0;
    while i < |pages|
      invariant 1 <= i <= |pages| && Chain(out) && |out| == i + gaps && out[|out| - 1] == Page(pages[i - 1])
      invariant gaps <= (if i >= 2 then 1 else 0) + (if i == |pages| && i >= 3 then 1 else 0)
      invariant forall k :: 0 <= k < i ==> Page(pages[k]) in out
    {
      InnerGap(s, pages, i);
      var more := AppendPage(out, pages[i - 1], pages[i]);
      gaps := gaps + |more| - |out| - 1;
      out := more;
      i := i + 1;
    }
    forall p | Anchor(s, p) ensures Page(p) in out {
      assert p in pages;
    }
  }

  /** The body of the loop: the page itself, behind whatever bridges the gap before it. */
  method AppendPage(items: seq<Item>, prev: int, p: int) returns (out: seq<Item>)
    requires Chain(items) && items != [] && items[|items| - 1] == Page(prev) && prev < p
    ensures Chain(out) && items < out && out[|out| - 1] == Page(p)
    ensures |out| == |items| + if p == prev + 1 then 1 else 2
  {
    out := items;
    if p - prev == 2 {
      ChainGrows(out, Page(p - 1));
      out := out + [Page(p - 1)];
    } else if p - prev > 2 {
      ChainGrows(out, Ellipsis(prev, p));
      out := out + [Ellipsis(prev, p)];
    }
    ChainGrows(out, Page(p));
    out := out + [Page(p)];
  }

  lemma StartChain()
    ensures Chain([Page(1)])
  {
  }

  lemma FirstLast(s: Pager, pages: seq<int>)
    requires Upper(s) >= 1 && Increasing(pages) && forall p :: p in pages <==> Anchor(s, p)
    ensures |pages| >= 1 && pages[0] == 1 && pages[|pages| - 1] == Upper(s)
  {
    assert 1 in pages && Upper(s) in pages;
    assert pages[0] in pages && pages[|pages| - 1] in pages;
  }

  /** Only the first and the last step between anchors can skip a page. */
  lemma InnerGap(s: Pager, pages: seq<int>, i: nat)
    requires Upper(s) >= 1 && Increasing(pages) && (forall p :: p in pages <==> Anchor(s, p)) && 0 < i < |pages|
    ensures i == 1 || i == |pages| - 1 || pages[i] == pages[i - 1] + 1
  {
    FirstLast(s, pages);
    if 1 < i < |pages| - 1 {
      assert pages[i - 1] in pages && pages[i] in pages;
      assert InWindow(s, pages[i - 1]) && InWindow(s, pages[i]);
      assert Anchor(s, pages[i - 1] + 1);
      assert pages[i - 1] + 1 in pages;
    }
  }

  lemma AnchorCount(s: Pager, pages: seq<int>)
    requires Increasing(pages) && forall p :: p in pages <==> Anchor(s, p)
    ensures |pages| <= 7
  {
    var all := {1, Upper(s), s.current - 2, s.current - 1, s.current, s.current + 1, s.current + 2};
    assert |all| <= 7;
    SizeOf(pages, all);
  }

  lemma {:induction false} SizeOf(ps: seq<int>, all: set<int>)
    requires Increasing(ps) && forall p :: p in ps ==> p in all
    ensures |ps| <= |all|
    decreases |ps|
  {
    if ps != [] {
      var n := |ps| - 1;
      assert ps[n] in ps;
      forall p | p in ps[..n] ensures p in all - {ps[n]} {
      }
      SizeOf(ps[..n], all - {ps[n]});
    }
  }
}
