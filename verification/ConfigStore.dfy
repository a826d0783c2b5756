/** `flatten` and `unflatten` of internal/config/store.go: nested settings and their dotted-key form. */
module ConfigStore {
  import opened Options

  /** A JSON value; whole numbers read from JSON are floats, built-in ones are ints. */
  datatype Value = Null | Str(s: string) | Bool(b: bool) | Int(n: int) | Float(x: real)

  datatype Tree = Leaf(value: Value) | Node(children: map<string, Tree>)

  type Path = seq<string>

  // ----- dotted keys -----

  function Split(k: string): (parts: Path)
    ensures |parts| >= 1
  {
    if k == "" then [""]
    else if k[0] == '.' then [""] + Split(k[1..])
    else
      var r := Split(k[1..]);
      [[k[0]] + r[0]] + r[1..]
  }

  function Join(parts: Path): string {
    if parts == [] then ""
    else if |parts| == 1 then parts[0]
    else parts[0] + "." + Join(parts[1..])
  }

  predicate Plain(part: string) { '.' !in part }

  predicate PlainPath(p: Path) { p != [] && forall i :: 0 <= i < |p| ==> Plain(p[i]) }

  /** The first part is not empty: only then is the prefix that `flatten` builds never mistaken for none. */
  predicate Rooted(p: Path) { PlainPath(p) && p[0] != "" }

  lemma {:induction false} SplitIsPlain(k: string)
    ensures PlainPath(Split(k))
    decreases |k|
  {
    if k != "" {
      SplitIsPlain(k[1..]);
      var r := Split(k[1..]);
      assert forall i :: 0 <= i < |r| ==> Plain(r[i]);
    }
  }

  lemma {:induction false} SplitWord(a: string, rest: string)
    requires '.' !in a
    ensures Split(a + "." + rest) == [a] + Split(rest)
    decreases |a|
  {
    if a == "" {
      assert a + "." + rest == "." + rest && ("." + rest)[1..] == rest;
    } else {
      var k := a + "." + rest;
      assert k[1..] == a[1..] + "." + rest;
      SplitWord(a[1..], rest);
      assert [k[0]] + a[1..] == a;
    }
  }

  lemma {:induction false} SplitPlain(a: string)
    requires '.' !in a
    ensures Split(a) == [a]
    decreases |a|
  {
    if a != "" {
      SplitPlain(a[1..]);
      assert [a[0]] + a[1..] == a;
    }
  }

  /** A plain path is read back from its dotted key. */
  lemma {:induction false} SplitJoin(p: Path)
    requires PlainPath(p)
    ensures Split(Join(p)) == p
    decreases |p|
  {
    assert Plain(p[0]);
    if |p| == 1 {
      SplitPlain(p[0]);
    } else {
      assert forall i :: 0 <= i < |p| - 1 ==> p[1..][i] == p[i + 1];
      SplitJoin(p[1..]);
      SplitWord(p[0], Join(p[1..]));
    }
  }

  // ----- looking up and writing one leaf -----

  function Lookup(m: map<string, Tree>, p: Path): Option<Value>
    decreases |p|
  {
    if p == [] || p[0] !in m then None
    else if |p| == 1 then (if m[p[0]].Leaf? then Some(m[p[0]].value) else None)
    else if m[p[0]].Node? then Lookup(m[p[0]].children, p[1..])
    else None
  }

  /** The nested writes of `unflatten` for one key; a scalar in the way is replaced by a map. */
  function Insert(m: map<string, Tree>, p: Path, v: Value): map<string, Tree>
    requires p != []
    decreases |p|
  {
    if |p| == 1 then m[p[0] := Leaf(v)]
    else
      var sub := if p[0] in m && m[p[0]].Node? then m[p[0]].children else map[];
      m[p[0] := Node(Insert(sub, p[1..], v))]
  }

  /** Neither path leads through the other. */
  predicate Apart(p: Path, q: Path) { !(p <= q) && !(q <= p) }

  lemma {:induction false} InsertedAt(m: map<string, Tree>, p: Path, v: Value)
    requires p != []
    ensures Lookup(Insert(m, p, v), p) == Some(v)
    decreases |p|
  {
    if |p| > 1 {
      InsertedAt(if p[0] in m && m[p[0]].Node? then m[p[0]].children else map[], p[1..], v);
    }
  }

  lemma LookupEmpty(p: Path)
    ensures Lookup(map[], p) == None
  {
  }

  /** Writing one leaf leaves every path that neither extends nor cuts short the written one. */
  lemma {:induction false} InsertElsewhere(m: map<string, Tree>, p: Path, v: Value, q: Path)
    requires p != [] && q != [] && Apart(p, q)
    ensures Lookup(Insert(m, p, v), q) == Lookup(m, q)
    decreases |p|
  {
    assert p == [p[0]] + p[1..] && q == [q[0]] + q[1..];
    assert q[0] == p[0] ==> |p| > 1 && |q| > 1;
    if q[0] == p[0] {
      ApartTails(p, q);
      var sub := if p[0] in m && m[p[0]].Node? then m[p[0]].children else map[];
      InsertElsewhere(sub, p[1..], v, q[1..]);
      LookupEmpty(q[1..]);
    }
  }

  lemma ApartTails(p: Path, q: Path)
    requires p != [] && q != [] && p[0] == q[0]
    ensures Apart(p, q) <==> Apart(p[1..], q[1..])
  {
    assert p == [p[0]] + p[1..] && q == [q[0]] + q[1..];
    assert p[1..] <= q[1..] ==> p <= q;
    assert q[1..] <= p[1..] ==> q <= p;
    assert p <= q ==> p[1..] <= q[1..];
    assert q <= p ==> q[1..] <= p[1..];
  }

  /** Nothing is found at a proper prefix or a proper extension of a path just written. */
  lemma {:induction false} InsertAlong(m: map<string, Tree>, p: Path, v: Value, q: Path)
    requires p != [] && q != [] && p != q && !Apart(p, q)
    ensures Lookup(Insert(m, p, v), q) == None
    decreases |p|
  {
    assert q[0] == p[0];
    assert p == [p[0]] + p[1..] && q == [q[0]] + q[1..];
    if |p| > 1 && |q| > 1 {
      ApartTails(p, q);
      InsertAlong(if p[0] in m && m[p[0]].Node? then m[p[0]].children else map[], p[1..], v, q[1..]);
    }
  }

  // ----- well-formed layers -----

  /** No name on the way has a dot in it. */
  predicate Tidy(t: Tree) {
    t.Node? ==> forall k :: k in t.children ==> Plain(k) && Tidy(t.children[k])
  }

  predicate NoEmpty(t: Tree) {
    t.Node? ==> forall k :: k in t.children ==> t.children[k] != Node(map[]) && NoEmpty(t.children[k])
  }

  lemma {:induction false} InsertTidy(m: map<string, Tree>, p: Path, v: Value)
    requires PlainPath(p) && Tidy(Node(m)) && NoEmpty(Node(m))
    ensures Tidy(Node(Insert(m, p, v))) && NoEmpty(Node(Insert(m, p, v))) && Insert(m, p, v) != map[]
    decreases |p|
  {
    hide Plain;
    assert Plain(p[0]) && p[0] in Insert(m, p, v);
    if |p| > 1 {
      var sub := if p[0] in m && m[p[0]].Node? then m[p[0]].children else map[];
      assert forall i :: 0 <= i < |p| - 1 ==> p[1..][i] == p[i + 1];
      InsertTidy(sub, p[1..], v);
      assert Insert(m, p, v) == m[p[0] := Node(Insert(sub, p[1..], v))];
      hide Insert;
      ChildTidy(m, p[0], Node(Insert(sub, p[1..], v)));
    } else {
      ChildTidy(m, p[0], Leaf(v));
    }
  }

  lemma ChildTidy(m: map<string, Tree>, k: string, t: Tree)
    requires Tidy(Node(m)) && NoEmpty(Node(m)) && Plain(k) && Tidy(t) && NoEmpty(t) && t != Node(map[])
    ensures Tidy(Node(m[k := t])) && NoEmpty(Node(m[k := t]))
  {
  }

  predicate RootedKeys(flat: map<string, Value>) { forall k :: k in flat ==> Split(k)[0] != "" }

  /** No other key of `flat` leads through this one or the other way round. */
  ghost predicate Alone(flat: map<string, Value>, k: string) { forall j :: j in flat && j != k ==> Apart(Split(j), Split(k)) }

  ghost predicate PrefixFree(flat: map<string, Value>) { forall k :: k in flat ==> Alone(flat, k) }

  /** `m` has only leaves that keys of `done` name, with their values, and those of all keys that conflict with no other. */
  ghost predicate Nests(m: map<string, Tree>, flat: map<string, Value>, done: set<string>) {
    && (forall k :: k in done && k in flat && Alone(flat, k) ==> Lookup(m, Split(k)) == Some(flat[k]))
    && (forall q: Path :: Lookup(m, q).Some? ==> exists k :: k in done && k in flat && Split(k) == q && Lookup(m, q) == Some(flat[k]))
  }

  /** `m` has exactly the leaves that the keys of `done` name. */
  ghost predicate Holds(m: map<string, Tree>, flat: map<string, Value>, done: set<string>) {
    && (forall k :: k in done && k in flat ==> Lookup(m, Split(k)) == Some(flat[k]))
    && (forall q: Path :: Lookup(m, q).Some? ==> exists k :: k in done && k in flat && Split(k) == q)
  }

  lemma NestsHolds(m: map<string, Tree>, flat: map<string, Value>, done: set<string>)
    requires Nests(m, flat, done) && PrefixFree(flat)
    ensures Holds(m, flat, done)
  {
    hide Split, Lookup, Alone;
  }

  /** `unflatten`, for any keys in any order: nothing is made up, every key that conflicts with no other gets its
      leaf, and without conflicts the leaves are exactly those of the keys. */
  method Unflatten(flat: map<string, Value>) returns (out: map<string, Tree>)
    ensures Tidy(Node(out)) && NoEmpty(Node(out)) && (RootedKeys(flat) ==> "" !in out)
    ensures Nests(out, flat, flat.Keys - {""})
    ensures PrefixFree(flat) && "" !in flat ==> Holds(out, flat, flat.Keys)
  {
    hide Split, Lookup, Insert, Alone, Nests, Holds, PlainPath, Tidy, NoEmpty, PrefixFree, Nesting;
    out := map[];
    var left := flat.Keys;
    NestingStarts(flat);
    while left != {}
      invariant left <= flat.Keys && Nesting(out, flat, left)
      decreases |left|
    {
      var k :| k in left;
      NestingStep(out, flat, left, k);
      if k != "" {
        out := Insert(out, Split(k), flat[k]);
      }
      left := left - {k};
    }
    NestingEnds(out, flat);
  }

  /** What the nested writes have made of the keys outside `left`. */
  ghost predicate Nesting(m: map<string, Tree>, flat: map<string, Value>, left: set<string>) {
    && Tidy(Node(m)) && NoEmpty(Node(m)) && (RootedKeys(flat) ==> "" !in m)
    && Nests(m, flat, flat.Keys - left - {""})
  }

  lemma NestingStarts(flat: map<string, Value>)
    ensures Nesting(map[], flat, flat.Keys)
  {
    hide Nests, Tidy, NoEmpty;
    NothingNested(flat);
    assert flat.Keys - flat.Keys - {""} == {};
  }

  lemma NestingStep(m: map<string, Tree>, flat: map<string, Value>, left: set<string>, k: string)
    requires k in left && left <= flat.Keys && Nesting(m, flat, left)
    ensures Nesting(if k != "" then Insert(m, Split(k), flat[k]) else m, flat, left - {k})
  {
    hide Split, Lookup, Insert, Alone, Nests, Tidy, NoEmpty, PlainPath;
    var done := flat.Keys - left - {""};
    if k != "" {
      SplitIsPlain(k);
      InsertTidyIf(m, Split(k), flat[k]);
      InsertRoot(m, Split(k), flat[k]);
      InsertNests(m, flat, done, k);
      assert flat.Keys - (left - {k}) - {""} == done + {k};
    } else {
      assert flat.Keys - (left - {k}) - {""} == done;
    }
  }

  lemma NestingEnds(m: map<string, Tree>, flat: map<string, Value>)
    requires Nesting(m, flat, {})
    ensures Nests(m, flat, flat.Keys - {""}) && (PrefixFree(flat) && "" !in flat ==> Holds(m, flat, flat.Keys))
    ensures Tidy(Node(m)) && NoEmpty(Node(m)) && (RootedKeys(flat) ==> "" !in m)
  {
    hide Nests, Tidy, NoEmpty, PrefixFree, Holds;
    assert flat.Keys - {} - {""} == flat.Keys - {""};
    if PrefixFree(flat) && "" !in flat {
      assert flat.Keys - {""} == flat.Keys;
      NestsHolds(m, flat, flat.Keys);
    }
  }

  lemma InsertRoot(m: map<string, Tree>, p: Path, v: Value)
    requires p != []
    ensures "" in Insert(m, p, v) ==> "" in m || p[0] == ""
  {
  }

  lemma InsertTidyIf(m: map<string, Tree>, p: Path, v: Value)
    requires PlainPath(p)
    ensures Tidy(Node(m)) && NoEmpty(Node(m)) ==> Tidy(Node(Insert(m, p, v))) && NoEmpty(Node(Insert(m, p, v)))
  {
    if Tidy(Node(m)) && NoEmpty(Node(m)) {
      InsertTidy(m, p, v);
    }
  }

  lemma InsertNests(m: map<string, Tree>, flat: map<string, Value>, done: set<string>, k: string)
    requires done <= flat.Keys && k in flat && Nests(m, flat, done)
    ensures Nests(Insert(m, Split(k), flat[k]), flat, done + {k})
  {
    hide Split, Lookup, Insert, Apart;
    var p := Split(k);
    var m' := Insert(m, p, flat[k]);
    InsertedAt(m, p, flat[k]);
    forall j | j in done + {k} && j in flat && Alone(flat, j) ensures Lookup(m', Split(j)) == Some(flat[j]) {
      if j != k {
        ApartBack(p, Split(j));
        InsertElsewhere(m, p, flat[k], Split(j));
      }
    }
    forall q: Path | Lookup(m', q).Some?
      ensures exists j :: j in done + {k} && j in flat && Split(j) == q && Lookup(m', q) == Some(flat[j])
    {
      if q == p {
        assert k in done + {k};
      } else {
        NothingAt(m');
        if Apart(p, q) {
          InsertElsewhere(m, p, flat[k], q);
          var j :| j in done && j in flat && Split(j) == q && Lookup(m, q) == Some(flat[j]);
          assert j in done + {k};
        } else {
          InsertAlong(m, p, flat[k], q);
        }
      }
    }
  }

  lemma ApartBack(p: Path, q: Path)
    ensures Apart(p, q) <==> Apart(q, p)
  {
  }

  lemma NothingAt(m: map<string, Tree>)
    ensures Lookup(m, []) == None
  {
  }

  lemma NothingNested(flat: map<string, Value>)
    ensures Tidy(Node(map[])) && NoEmpty(Node(map[])) && Nests(map[], flat, {})
  {
    forall q: Path ensures Lookup(map[], q) == None {
      LookupEmpty(q);
    }
  }

  // ----- flatten -----

  lemma {:induction false} JoinSnoc(p: Path, k: string)
    ensures Join(p + [k]) == if p == [] then k else Join(p) + "." + k
    decreases |p|
  {
    if p == [] {
      assert p + [k] == [k];
    } else {
      assert (p + [k])[1..] == p[1..] + [k];
      JoinSnoc(p[1..], k);
      if |p| == 1 {
        assert p[1..] + [k] == [k];
      } else {
        assert p[0] + "." + (Join(p[1..]) + "." + k) == p[0] + "." + Join(p[1..]) + "." + k;
      }
    }
  }

  /** The leaf a dotted key names below prefix `p`, if its next part is among `done`. */
  function LeafAt(p: Path, m: map<string, Tree>, done: set<string>, key: string): Option<Value> {
    var q := Split(key);
    if p <= q && |q| > |p| && q[|p|] in done then Lookup(m, q[|p|..]) else None
  }

  ghost predicate IsFlat(p: Path, m: map<string, Tree>, done: set<string>, flat: map<string, Value>) {
    forall key: string :: if key in flat then LeafAt(p, m, done, key) == Some(flat[key]) else LeafAt(p, m, done, key) == None
  }

  lemma JoinFirst(c: char, r: Path)
    requires r != []
    ensures Join([[c] + r[0]] + r[1..]) == [c] + Join(r)
  {
    var s := [[c] + r[0]] + r[1..];
    assert s[1..] == r[1..] && s[0] == [c] + r[0];
    if |r| > 1 {
      assert [c] + r[0] + "." + Join(r[1..]) == [c] + (r[0] + "." + Join(r[1..]));
    }
  }

  lemma {:induction false} JoinSplit(k: string)
    ensures Join(Split(k)) == k
    decreases |k|
  {
    if k != "" {
      JoinSplit(k[1..]);
      var r := Split(k[1..]);
      assert k == [k[0]] + k[1..];
      JoinFirst(k[0], r);
      assert ([""] + r)[1..] == r && ([""] + r)[0] == "";
      assert "" + "." + k[1..] == "." + k[1..];
    }
  }

  /** One child's entries join the others. */
  lemma FlatStep(p: Path, m: map<string, Tree>, done: set<string>, out: map<string, Value>, k: string, more: map<string, Value>)
    requires (p == [] || Rooted(p)) && k in m && k !in done && Plain(k) && (p == [] ==> k != "") && IsFlat(p, m, done, out)
    requires m[k].Leaf? ==> more == map[Join(p + [k]) := m[k].value]
    requires m[k].Node? ==> IsFlat(p + [k], m[k].children, m[k].children.Keys, more)
    ensures IsFlat(p, m, done + {k}, out + more)
  {
    assert PlainPath(p + [k]);
    SplitJoin(p + [k]);
    hide Split, Join, PlainPath, Plain;
    forall key: string
      ensures if key in out + more then LeafAt(p, m, done + {k}, key) == Some((out + more)[key]) else LeafAt(p, m, done + {k}, key) == None
    {
      JoinSplit(key);
      assert if key in out then LeafAt(p, m, done, key) == Some(out[key]) else LeafAt(p, m, done, key) == None;
      if m[k].Node? {
        assert if key in more then LeafAt(p + [k], m[k].children, m[k].children.Keys, key) == Some(more[key])
               else LeafAt(p + [k], m[k].children, m[k].children.Keys, key) == None;
      }
      hide IsFlat;
      LeafUnder(p, m, done, k, key);
    }
  }

  /** The leaf at a key is an old one or one below the new child. */
  lemma LeafUnder(p: Path, m: map<string, Tree>, done: set<string>, k: string, key: string)
    requires k in m && k !in done
    ensures m[k].Leaf? ==>
      LeafAt(p, m, done + {k}, key) == (if Split(key) == p + [k] then Some(m[k].value) else LeafAt(p, m, done, key))
    ensures m[k].Leaf? && Split(key) == p + [k] ==> LeafAt(p, m, done, key) == None
    ensures m[k].Node? ==> (
      var sub := LeafAt(p + [k], m[k].children, m[k].children.Keys, key);
      LeafAt(p, m, done + {k}, key) == if sub.Some? then sub else LeafAt(p, m, done, key))
  {
    hide Split;
    var q := Split(key);
    if p <= q && |q| > |p| && q[|p|] == k {
      UnderChild(p, m, k, q);
    } else {
      assert !(p + [k] <= q);
    }
  }

  lemma UnderChild(p: Path, m: map<string, Tree>, k: string, q: Path)
    requires p <= q && |q| > |p| && q[|p|] == k && k in m
    ensures p + [k] <= q
    ensures |q| == |p| + 1 ==> q == p + [k]
    ensures Lookup(m, q[|p|..]) ==
      if m[k].Leaf? then (if |q| == |p| + 1 then Some(m[k].value) else None)
      else if |q| > |p| + 1 && q[|p| + 1] in m[k].children then Lookup(m[k].children, q[|p| + 1..]) else None
  {
    assert q == p + [k] + q[|p| + 1..];
    assert q[|p|..] == [k] + q[|p| + 1..];
    assert q[|p|..][1..] == q[|p| + 1..];
  }

  /** No dots in names, and no empty name at the root. */
  predicate Flattens(t: Tree, p: Path) {
    t.Node? && Tidy(t) && if p == [] then "" !in t.children else Rooted(p)
  }

  lemma FlatNext(p: Path, prefix: string, t: Tree, left: set<string>, out: map<string, Value>, k: string, key: string, more: map<string, Value>)
    requires t.Node? && k in left && left <= t.children.Keys && prefix == Join(p) && key == (if prefix == "" then k else prefix + "." + k)
    requires var sub := t.children[k];
      if sub.Leaf? then more == map[key := sub.value]
      else Tidy(sub) && Rooted(if prefix == "" then [k] else p + [k]) ==>
             IsFlat(if prefix == "" then [k] else p + [k], sub.children, sub.children.Keys, more)
    ensures Flattens(t, p) && IsFlat(p, t.children, t.children.Keys - left, out) ==>
      IsFlat(p, t.children, t.children.Keys - (left - {k}), out + more)
  {
    if Flattens(t, p) && IsFlat(p, t.children, t.children.Keys - left, out) {
      PrefixEmpty(p);
      JoinSnoc(p, k);
      assert [] + [k] == [k];
      assert t.children.Keys - (left - {k}) == t.children.Keys - left + {k};
      assert Rooted(p + [k]);
      hide IsFlat, Join, Split, Tidy;
      FlatStep(p, t.children, t.children.Keys - left, out, k, more);
    }
  }

  lemma PrefixEmpty(p: Path)
    ensures p == [] || Rooted(p) ==> (Join(p) == "" <==> p == [])
  {
  }

  /** Empty, or with a first part that is not. */
  predicate HasRoot(key: string) { key == "" || Split(key)[0] != "" }

  lemma {:induction false} FirstPart(a: string, b: string)
    ensures Split(a + "." + b)[0] == Split(a)[0]
    decreases |a|
  {
    if a == "" {
      assert "" + "." + b == "." + b;
    } else {
      FirstPart(a[1..], b);
      assert (a + "." + b)[1..] == a[1..] + "." + b;
    }
  }

  lemma NextHasRoot(prefix: string, k: string)
    requires HasRoot(prefix) && Plain(k)
    ensures HasRoot(if prefix == "" then k else prefix + "." + k)
  {
    FirstPart(prefix, k);
    SplitPlain(k);
  }

  /** `flatten`; whatever the tree, no key it makes begins with a dot. */
  method Flatten(prefix: string, t: Tree, ghost p: Path) returns (out: map<string, Value>)
    requires prefix == Join(p)
    ensures Flattens(t, p) ==> IsFlat(p, t.children, t.children.Keys, out)
    ensures Tidy(t) && HasRoot(prefix) ==> forall key :: key in out ==> HasRoot(key)
    ensures t.Leaf? ==> out == if prefix == "" then map[] else map[prefix := t.value]
    decreases t
  {
    hide Split, Lookup, IsFlat, Flattens, HasRoot;
    out := map[];
    if t.Leaf? {
      if prefix != "" {
        out := map[prefix := t.value];
      }
      NotANode(t, p);
      return;
    }
    var m := t.children;
    var left := m.Keys;
    NothingFlat(t, p);
    while left != {}
      invariant left <= m.Keys
      invariant Flattens(t, p) ==> IsFlat(p, m, m.Keys - left, out)
      invariant Tidy(t) && HasRoot(prefix) ==> forall key :: key in out ==> HasRoot(key)
      decreases |left|
    {
      var k :| k in left;
      var key := if prefix == "" then k else prefix + "." + k;
      JoinSnoc(p, k);
      assert key == Join(p + [k]) || prefix == "";
      var more: map<string, Value>;
      if Tidy(t) && HasRoot(prefix) {
        NextHasRoot(prefix, k);
      }
      if m[k].Node? {
        more := Flatten(key, m[k], if prefix == "" then [k] else p + [k]);
        SubFlattens(m[k], if prefix == "" then [k] else p + [k]);
      } else {
        more := map[key := m[k].value];
      }
      FlatNext(p, prefix, t, left, out, k, key, more);
      out := out + more;
      left := left - {k};
    }
    assert m.Keys - {} == m.Keys;
  }

  lemma NotANode(t: Tree, p: Path)
    requires t.Leaf?
    ensures !Flattens(t, p)
  {
  }

  lemma SubFlattens(t: Tree, p: Path)
    requires p != []
    ensures t.Node? && Tidy(t) && Rooted(p) ==> Flattens(t, p)
  {
  }

  lemma NothingFlat(t: Tree, p: Path)
    requires t.Node?
    ensures Flattens(t, p) ==> IsFlat(p, t.children, t.children.Keys - t.children.Keys, map[])
  {
  }

  // ----- the two are inverse -----

  /** What was nested from prefix-free keys flattens back to itself. */
  lemma FlattenUnflatten(flat: map<string, Value>, m: map<string, Tree>, again: map<string, Value>)
    requires Holds(m, flat, flat.Keys) && IsFlat([], m, m.Keys, again)
    ensures again == flat
  {
    hide Split, Lookup;
    forall key: string ensures LeafAt([], m, m.Keys, key) == Lookup(m, Split(key)) {
      LookupHead(m, Split(key));
      assert Split(key)[0..] == Split(key);
    }
    forall key: string | key in again ensures key in flat && flat[key] == again[key] {
      assert Lookup(m, Split(key)).Some?;
      var j :| j in flat && Split(j) == Split(key);
      JoinSplit(j);
      JoinSplit(key);
    }
    forall key: string | key in flat ensures key in again {
      assert Lookup(m, Split(key)).Some?;
    }
  }

  lemma LookupHead(m: map<string, Tree>, p: Path)
    ensures p != [] && p[0] !in m ==> Lookup(m, p) == None
  {
  }

  /** Leaves of one tree lie apart. */
  lemma {:induction false} LeavesApart(m: map<string, Tree>, p: Path, q: Path)
    requires Lookup(m, p).Some? && Lookup(m, q).Some? && p != q
    ensures Apart(p, q)
    decreases |p|
  {
    assert p == [p[0]] + p[1..] && q == [q[0]] + q[1..];
    if p[0] == q[0] {
      if |p| > 1 {
        LeavesApart(m[p[0]].children, p[1..], q[1..]);
      }
      ApartTails(p, q);
    }
  }

  /** For prefix-free keys, with what the two methods promise, the round trip gives the keys back if and only if
      none of them begins with a dot: {".a": v} comes back as {"a": v}. */
  lemma RoundTripExact(flat: map<string, Value>, m: map<string, Tree>, again: map<string, Value>)
    requires PrefixFree(flat) && "" !in flat && Holds(m, flat, flat.Keys)
    requires RootedKeys(flat) ==> IsFlat([], m, m.Keys, again)
    requires forall key :: key in again ==> HasRoot(key)
    ensures again == flat <==> RootedKeys(flat)
  {
    hide Split, Holds, IsFlat, PrefixFree;
    if RootedKeys(flat) {
      FlattenUnflatten(flat, m, again);
    }
  }

  /** Only plain names lead to a leaf of a tidy tree. */
  lemma {:induction false} LeafPlain(m: map<string, Tree>, p: Path)
    requires Tidy(Node(m)) && Lookup(m, p).Some?
    ensures PlainPath(p)
    decreases |p|
  {
    if |p| > 1 {
      LeafPlain(m[p[0]].children, p[1..]);
      assert forall i :: 0 < i < |p| ==> p[i] == p[1..][i - 1];
    }
  }

  lemma {:induction false} SomeLeaf(m: map<string, Tree>) returns (p: Path)
    requires NoEmpty(Node(m)) && m != map[]
    ensures p != [] && Lookup(m, p).Some?
    decreases Node(m)
  {
    var k :| k in m;
    if m[k].Leaf? {
      p := [k];
    } else {
      assert m[k] == Node(m[k].children);
      var q := SomeLeaf(m[k].children);
      p := [k] + q;
      assert p[1..] == q;
    }
  }

  /** Trees without empty maps that have the same leaves are equal. */
  lemma {:induction false} SameLeaves(a: map<string, Tree>, b: map<string, Tree>)
    requires NoEmpty(Node(a)) && NoEmpty(Node(b)) && forall q: Path :: Lookup(a, q) == Lookup(b, q)
    ensures a == b
    decreases Node(a)
  {
    forall k | k in a ensures k in b && a[k] == b[k] {
      SameChild(a, b, k);
      if a[k].Node? {
        assert a[k] == Node(a[k].children);
        SameLeaves(a[k].children, b[k].children);
      }
    }
    forall k | k in b ensures k in a {
      SameChild(b, a, k);
    }
  }

  lemma SameChild(a: map<string, Tree>, b: map<string, Tree>, k: string)
    requires NoEmpty(Node(a)) && NoEmpty(Node(b)) && k in a && forall q: Path :: Lookup(a, q) == Lookup(b, q)
    ensures k in b && a[k].Leaf? == b[k].Leaf?
    ensures a[k].Leaf? ==> a[k] == b[k]
    ensures a[k].Node? ==> forall q: Path :: Lookup(a[k].children, q) == Lookup(b[k].children, q)
  {
    if a[k].Leaf? {
      assert Lookup(a, [k]) == Some(a[k].value);
    } else {
      var q := SomeLeaf(a[k].children);
      assert ([k] + q)[1..] == q;
      assert Lookup(a, [k] + q).Some?;
      assert Lookup(b, [k] + q).Some?;
      forall r: Path ensures Lookup(a[k].children, r) == Lookup(b[k].children, r) {
        assert ([k] + r)[1..] == r;
        assert Lookup(a, [k] + r) == Lookup(b, [k] + r);
      }
    }
  }

  /** Flattening a tree without dotted names, empty maps or an empty name at its root, and nesting it again gives the tree back. */
  lemma UnflattenFlatten(m: map<string, Tree>, flat: map<string, Value>, again: map<string, Tree>)
    requires Tidy(Node(m)) && NoEmpty(Node(m)) && "" !in m && IsFlat([], m, m.Keys, flat)
    requires PrefixFree(flat) && "" !in flat ==> Holds(again, flat, flat.Keys)
    requires NoEmpty(Node(again))
    ensures again == m
  {
    FlatKeys(m, flat);
    assert Split("")[0] == "";
    hide Split, Tidy, NoEmpty, PrefixFree;
    forall q: Path ensures Lookup(again, q) == Lookup(m, q) {
      SameAt(m, flat, again, q);
    }
    SameLeaves(again, m);
  }

  lemma FlatLeaf(m: map<string, Tree>, flat: map<string, Value>, key: string)
    requires IsFlat([], m, m.Keys, flat)
    ensures Lookup(m, Split(key)) == if key in flat then Some(flat[key]) else None
  {
    LookupHead(m, Split(key));
    assert Split(key)[0..] == Split(key);
  }

  lemma FlatKeys(m: map<string, Tree>, flat: map<string, Value>)
    requires Tidy(Node(m)) && "" !in m && IsFlat([], m, m.Keys, flat)
    ensures RootedKeys(flat) && PrefixFree(flat)
  {
    hide Split, Lookup, Tidy, IsFlat;
    forall a | a in flat ensures Split(a)[0] != "" {
      FlatLeaf(m, flat, a);
      LookupHead(m, Split(a));
    }
    forall a, b | a in flat && b in flat && a != b ensures Apart(Split(a), Split(b)) {
      FlatLeaf(m, flat, a);
      FlatLeaf(m, flat, b);
      JoinSplit(a);
      JoinSplit(b);
      LeavesApart(m, Split(a), Split(b));
    }
  }

  lemma SameAt(m: map<string, Tree>, flat: map<string, Value>, again: map<string, Tree>, q: Path)
    requires Tidy(Node(m)) && IsFlat([], m, m.Keys, flat) && Holds(again, flat, flat.Keys)
    ensures Lookup(again, q) == Lookup(m, q)
  {
    hide Split, Lookup, Tidy, IsFlat;
    if Lookup(again, q).Some? {
      var k :| k in flat && Split(k) == q;
      FlatLeaf(m, flat, k);
    } else if Lookup(m, q).Some? {
      LeafPlain(m, q);
      SplitJoin(q);
      FlatLeaf(m, flat, Join(q));
    }
  }

  /** Nesting the keys one after the other. */
  lemma {:induction false} Nested(flat: map<string, Value>, done: set<string>) returns (m: map<string, Tree>)
    requires done <= flat.Keys && RootedKeys(flat)
    ensures Tidy(Node(m)) && NoEmpty(Node(m)) && "" !in m && Nests(m, flat, done)
    decreases |done|
  {
    hide Split, Lookup, PlainPath, Nests, Tidy, NoEmpty;
    m := map[];
    if done == {} {
      NothingNested(flat);
    } else {
      var k :| k in done;
      var rest := Nested(flat, done - {k});
      SplitIsPlain(k);
      InsertTidyIf(rest, Split(k), flat[k]);
      InsertRoot(rest, Split(k), flat[k]);
      InsertNests(rest, flat, done - {k}, k);
      assert done - {k} + {k} == done;
      m := Insert(rest, Split(k), flat[k]);
    }
  }

  lemma HeldIsFlat(flat: map<string, Value>, m: map<string, Tree>)
    requires Holds(m, flat, flat.Keys)
    ensures IsFlat([], m, m.Keys, flat)
  {
    hide Split, Lookup;
    forall key: string
      ensures if key in flat then LeafAt([], m, m.Keys, key) == Some(flat[key]) else LeafAt([], m, m.Keys, key) == None
    {
      LookupHead(m, Split(key));
      assert Split(key)[0..] == Split(key);
      if key !in flat && Lookup(m, Split(key)).Some? {
        var j :| j in flat && Split(j) == Split(key);
        JoinSplit(j);
        JoinSplit(key);
      }
    }
  }

  /** Keys are the flat form of some tree with no dotted name, no empty map and no empty name at its root if and only
      if none begins with a dot or is empty, and none leads through another. */
  lemma FlatFormExact(flat: map<string, Value>)
    ensures RootedKeys(flat) && PrefixFree(flat) <==>
      exists m :: Tidy(Node(m)) && NoEmpty(Node(m)) && "" !in m && IsFlat([], m, m.Keys, flat)
  {
    hide Tidy, NoEmpty, IsFlat, RootedKeys, PrefixFree, Holds, Nests;
    if RootedKeys(flat) && PrefixFree(flat) {
      var m := Nested(flat, flat.Keys);
      NestsHolds(m, flat, flat.Keys);
      HeldIsFlat(flat, m);
    }
    if m :| Tidy(Node(m)) && NoEmpty(Node(m)) && "" !in m && IsFlat([], m, m.Keys, flat) {
      FlatKeys(m, flat);
    }
  }
}
