/** `Manager` of internal/config/manager.go: layered settings, diff-only persistence, restart pinning. */
module ConfigManager {
  import opened Options
  import opened ConfigStore

  datatype GoType = GoString | GoBool | GoInt | GoDuration

  datatype Field = Field(goType: GoType, sensitive: bool, isInternal: bool, hidden: bool, restart: bool,
                         enum: seq<string>, min: Option<int>, max: Option<int>)

  type Layer = map<string, Value>

  const CHANNEL := "app.update.channel"
  const MASK := "***"

  /** What is fixed for a process: the schema, the static defaults, the build's update channel, the
      environment, and how Go parses numbers and durations. */
  datatype Rules = Rules(fields: map<string, Field>, base: Layer, channel: string, env: map<string, string>,
                         parseInt: string -> Option<int>, isDuration: string -> bool, lower: string -> string)
  {
    /** The channel has no static default. */
    predicate Valid() { CHANNEL !in base }
  }

  // ----- values up to JSON -----

  function Canon(v: Value): Value { if v.Int? then Float(v.n as real) else v }

  predicate SameJson(a: Value, b: Value) { Canon(a) == Canon(b) }

  const YES: set<string> := {"true", "1", "yes", "on"}
  const NO: set<string> := {"false", "0", "no", "off"}

  function ToInt(v: Value): Option<int> {
    match v
    case Int(n) => Some(n)
    case Float(x) => if x.Floor as real == x then Some(x.Floor) else None
    case _ => None
  }

  function Coerce(r: Rules, f: Field, v: Value): Value {
    match f.goType
    case GoInt =>
      if v.Str? then (if r.parseInt(v.s).Some? then Int(r.parseInt(v.s).value) else v)
      else if ToInt(v).Some? then Int(ToInt(v).value) else v
    case GoBool =>
      if v.Str? && r.lower(v.s) in YES then Bool(true)
      else if v.Str? && r.lower(v.s) in NO then Bool(false)
      else v
    case _ => v
  }

  lemma CoerceRespectsJson(r: Rules, f: Field, a: Value, b: Value)
    requires SameJson(a, b)
    ensures SameJson(Coerce(r, f, a), Coerce(r, f, b))
  {
    assert a.Int? ==> (a.n as real).Floor == a.n;
    assert b.Int? ==> (b.n as real).Floor == b.n;
  }

  // ----- the layers -----

  datatype Source = FromDefaults | FromFile | FromEnv

  function Defaults(r: Rules): Layer { r.base[CHANNEL := Str(r.channel)] }

  function Layered(r: Rules, file: Layer, k: string): Value {
    if k in r.env then Str(r.env[k])
    else if k in file then file[k]
    else if k in Defaults(r) then Defaults(r)[k]
    else Null
  }

  /** `snapshotEffective`: values, and where each comes from. */
  function Effective(r: Rules, file: Layer): Layer {
    map k | k in r.fields :: Coerce(r, r.fields[k], Layered(r, file, k))
  }

  function Sources(r: Rules, file: Layer): map<string, Source> {
    map k | k in r.fields :: if k in r.env then FromEnv else if k in file then FromFile else FromDefaults
  }

  /** `pruneAgainstDefaults`. */
  function Prune(r: Rules, file: Layer): Layer {
    map k | k in file && !(k in r.base && SameJson(file[k], r.base[k])) :: file[k]
  }

  /** Pruning never changes any layered value, up to JSON equality, whatever the environment and channel. */
  lemma PruneLossless(r: Rules, file: Layer, k: string)
    requires r.Valid() && k in r.fields
    ensures SameJson(Effective(r, Prune(r, file))[k], Effective(r, file)[k])
    ensures k !in r.base || k !in file ==> Effective(r, Prune(r, file))[k] == Effective(r, file)[k]
  {
    CoerceRespectsJson(r, r.fields[k], Layered(r, Prune(r, file), k), Layered(r, file, k));
  }

  /** What is kept is needed: no kept key equals its static default, and the channel is always kept. */
  lemma PruneMinimal(r: Rules, file: Layer)
    requires r.Valid()
    ensures forall k :: k in Prune(r, file) && k in r.base ==> !SameJson(Prune(r, file)[k], r.base[k])
    ensures CHANNEL in file ==> CHANNEL in Prune(r, file) && Prune(r, file)[CHANNEL] == file[CHANNEL]
    ensures Prune(r, Prune(r, file)) == Prune(r, file)
  {
  }

  // ----- masking -----

  function MaskValue(v: Value): Value { if v.Null? || v == Str("") then Str("") else Str(MASK) }

  predicate IsSentinel(v: Value) { v == Str(MASK) || v == Str("") }

  /** The masked form tells only whether a secret is set, and is what a client may send back. */
  lemma MaskHides(v: Value)
    ensures IsSentinel(MaskValue(v)) && (MaskValue(v) == Str("") <==> v.Null? || v == Str(""))
  {
  }

  predicate Sensitive(r: Rules, k: string) { k in r.fields && r.fields[k].sensitive }

  // ----- Patch and Reset -----

  predicate InRange(f: Field, n: int) { (f.min.Some? ==> f.min.value <= n) && (f.max.Some? ==> n <= f.max.value) }

  predicate ValidValue(r: Rules, f: Field, v: Value) {
    match f.goType
    case GoString => v.Str? && (f.enum == [] || v.s in f.enum)
    case GoBool => v.Bool?
    case GoInt => ToInt(v).Some? && InRange(f, ToInt(v).value)
    case GoDuration => v.Str? && (v.s == "" || r.isDuration(v.s))
  }

  predicate PatchOk(r: Rules, k: string, v: Value) {
    && k in r.fields && !r.fields[k].isInternal
    && ((r.fields[k].sensitive && IsSentinel(v)) || ValidValue(r, r.fields[k], v))
  }

  function Merged(r: Rules, file: Layer, patch: Layer): Layer {
    file + map k | k in patch && !(Sensitive(r, k) && IsSentinel(patch[k])) :: patch[k]
  }

  /** Sending a masked value back leaves the stored secret as it is. */
  lemma MaskedPatchKeepsSecret(r: Rules, file: Layer, patch: Layer, k: string, v: Value)
    requires Sensitive(r, k) && k in patch && patch[k] == MaskValue(v)
    ensures k in Merged(r, file, patch) <==> k in file
    ensures k in file ==> Merged(r, file, patch)[k] == file[k]
  {
    MaskHides(v);
  }

  /** The part of the file that a blanket reset leaves. */
  function KeptByResetAll(r: Rules, file: Layer): Layer {
    map k | k in file && k in r.fields && (r.fields[k].isInternal || r.fields[k].hidden) :: file[k]
  }

  datatype Request = Patch(patch: Layer) | Reset(keys: seq<string>, all: bool)

  /** The file layer a request asks for, or nothing when the request itself is refused. */
  function Proposed(r: Rules, file: Layer, q: Request): Option<Layer> {
    match q
    case Patch(patch) =>
      if patch == map[] || exists k :: k in patch && !PatchOk(r, k, patch[k]) then None else Some(Merged(r, file, patch))
    case Reset(keys, all) =>
      if all then (if keys == [] then Some(KeptByResetAll(r, file)) else None)
      else if keys == [] || exists k :: k in keys && !(k in r.fields && !r.fields[k].isInternal) then None
      else Some(file - set k | k in keys)
  }

  /** The manager: the file on disk and the live snapshot. */
  datatype State = State(disk: Layer, eff: Layer, src: map<string, Source>)

  /** How the outside answers: can the file be read, does the candidate parse and validate, can it be saved,
      and can it be read again for the view that is returned. */
  datatype World = World(readable: bool, accepts: Layer -> bool, saves: bool, rereadable: bool)

  /** The part of a request up to the save: the new state, or nothing when the request stops before it. */
  function Handle(r: Rules, s: State, q: Request, w: World): Option<State> {
    var p := Proposed(r, s.disk, q);
    if !w.readable || p.None? || !w.accepts(p.value) || !w.saves then None
    else
      var kept := Prune(r, p.value);
      Some(State(kept, Effective(r, kept), Sources(r, kept)))
  }

  function Boot(r: Rules, disk: Layer): State { State(disk, Effective(r, disk), Sources(r, disk)) }

  // ----- runs -----

  /** The caller gets a view, not an error. */
  predicate Answered(r: Rules, s: State, q: Request, w: World) { Handle(r, s, q, w).Some? && w.rereadable }

  /** A request that stops before the save leaves everything as it is. */
  function After(r: Rules, s: State, q: Request, w: World): State {
    match Handle(r, s, q, w) case Some(t) => t case None => s
  }

  /** An error changes nothing if and only if it came before the save, or what was saved was there already:
      when only the reading back for the view fails, the caller gets an error for a change that has happened. */
  lemma ErrorKeepsState(r: Rules, s: State, q: Request, w: World)
    requires s == Boot(r, s.disk) && !Answered(r, s, q, w)
    ensures After(r, s, q, w) == s <==>
      Handle(r, s, q, w).None? || Prune(r, Proposed(r, s.disk, q).value) == s.disk
  {
    hide Proposed, Prune, Effective, Sources;
  }

  const HOST := "server.host"
  const ONE_KEY: Rules :=
    Rules(map[HOST := Field(GoString, false, false, false, false, [], None, None)], map[HOST := Str("a")], "stable", map[],
          _ => None, _ => false, x => x)

  /** An input for it: the setting is saved and live, and the caller is told that the request failed. */
  lemma ErrorAfterSave()
    ensures var s := Boot(ONE_KEY, map[]); var q := Patch(map[HOST := Str("b")]); var w := World(true, _ => true, true, false);
      !Answered(ONE_KEY, s, q, w) && After(ONE_KEY, s, q, w) == Boot(ONE_KEY, map[HOST := Str("b")]) && After(ONE_KEY, s, q, w) != s
  {
    var s, q, w := Boot(ONE_KEY, map[]), Patch(map[HOST := Str("b")]), World(true, _ => true, true, false);
    assert HOST in q.patch;
    assert Merged(ONE_KEY, map[], q.patch) == map[HOST := Str("b")];
    assert Prune(ONE_KEY, map[HOST := Str("b")]) == map[HOST := Str("b")];
    assert HOST in Boot(ONE_KEY, map[HOST := Str("b")]).disk && HOST !in s.disk;
  }

  ghost predicate IsRun(r: Rules, run: seq<State>, requests: seq<(Request, World)>) {
    && |run| == |requests| + 1 && run[0] == Boot(r, run[0].disk)
    && forall i :: 0 <= i < |requests| ==> run[i + 1] == After(r, run[i], requests[i].0, requests[i].1)
  }

  /** The live snapshot is always the layered view of what is on disk. */
  lemma {:induction false} LiveMatchesDisk(r: Rules, run: seq<State>, requests: seq<(Request, World)>, i: nat)
    requires IsRun(r, run, requests) && i < |run|
    ensures run[i] == Boot(r, run[i].disk)
  {
    if i > 0 {
      LiveMatchesDisk(r, run, requests, i - 1);
      hide Proposed, Effective, Sources, Prune;
      assert run[i] == After(r, run[i - 1], requests[i - 1].0, requests[i - 1].1);
    }
  }

  // ----- the view -----

  datatype View = View(effective: Layer, file: Layer, sources: map<string, Source>, pending: seq<string>)

  function Shown(r: Rules, k: string, v: Value): Value { if Sensitive(r, k) then MaskValue(v) else v }

  /** Lexicographic order on strings. */
  predicate Less(a: string, b: string) {
    b != "" && (a == "" || a[0] < b[0] || (a[0] == b[0] && Less(a[1..], b[1..])))
  }

  lemma {:induction false} LessTrans(a: string, b: string, c: string)
    requires Less(a, b) && Less(b, c)
    ensures Less(a, c)
    decreases |a|
  {
    if a != "" && a[0] == b[0] && b[0] == c[0] {
      LessTrans(a[1..], b[1..], c[1..]);
    }
  }

  lemma {:induction false} LessTotal(a: string, b: string)
    ensures a == b || Less(a, b) || Less(b, a)
    decreases |a|
  {
    if a != "" && b != "" && a[0] == b[0] {
      LessTotal(a[1..], b[1..]);
      assert a == [a[0]] + a[1..] && b == [b[0]] + b[1..];
    }
  }

  predicate Sorted(s: seq<string>) { forall i, k :: 0 <= i < k < |s| ==> Less(s[i], s[k]) }

  /** A restart-required key whose layered value has drifted from the one at startup. */
  predicate HasDrifted(r: Rules, disk: Layer, startup: Layer, k: string) {
    k in r.fields && r.fields[k].restart && !SameJson(Effective(r, disk)[k], Effective(r, startup)[k])
  }

  /** Hot keys show the layered value of what is on disk, restart-required keys that of the startup file; secrets are masked. */
  predicate KeyShown(r: Rules, disk: Layer, startup: Layer, k: string, v: Value, source: Source) {
    && k in r.fields
    && var at := if r.fields[k].restart then startup else disk;
       v == Shown(r, k, Effective(r, at)[k]) && source == Sources(r, at)[k]
  }

  lemma EffectiveKeys(r: Rules, file: Layer)
    ensures Effective(r, file).Keys == Sources(r, file).Keys == r.fields.Keys
  {
  }

  /** One insertion of `sort.Strings`. */
  method InsertSorted(s: seq<string>, k: string) returns (out: seq<string>)
    requires Sorted(s) && k !in s
    ensures Sorted(out) && forall x :: x in out <==> x in s || x == k
  {
    var i := 0;
    while i < |s| && Less(s[i], k)
      invariant 0 <= i <= |s| && forall j :: 0 <= j < i ==> Less(s[j], k)
    {
      i := i + 1;
    }
    if i < |s| {
      LessTotal(s[i], k);
      forall j | i <= j < |s| ensures Less(k, s[j]) {
        if j > i {
          LessTrans(k, s[i], s[j]);
        }
      }
    }
    out := s[..i] + [k] + s[i..];
  }

  class Manager {
    const rules: Rules
    const startup: State
    var disk: Layer
    var eff: Layer
    var src: map<string, Source>

    function Snapshot(): State
      reads this
    {
      State(disk, eff, src)
    }

    /** The live snapshot is the layered view of the disk; the startup one that of the disk it started from. */
    ghost predicate Valid()
      reads this
    {
      Snapshot() == Boot(rules, disk) && startup == Boot(rules, startup.disk)
    }

    constructor (rules: Rules, disk: Layer)
      ensures Valid() && this.rules == rules && startup == Boot(rules, disk) && Snapshot() == Boot(rules, disk)
    {
      this.rules := rules;
      startup := Boot(rules, disk);
      this.disk, eff, src := disk, Effective(rules, disk), Sources(rules, disk);
    }

    /** `validateAndPersist` and `applyLive`. */
    method Persist(layer: Layer, w: World) returns (ok: bool)
      modifies this
      ensures ok == (w.accepts(layer) && w.saves) && (old(Valid()) ==> Valid())
      ensures Snapshot() == if ok then Boot(rules, Prune(rules, layer)) else old(Snapshot())
    {
      if !w.accepts(layer) || !w.saves {
        return false;
      }
      var kept := Prune(rules, layer);
      disk := kept;
      eff, src := Effective(rules, kept), Sources(rules, kept);
      ok := true;
    }

    /** `precheckPatch`. */
    method Precheck(patch: Layer) returns (ok: bool)
      ensures ok <==> forall k :: k in patch ==> PatchOk(rules, k, patch[k])
    {
      hide PatchOk;
      ok := true;
      var left := patch.Keys;
      while left != {}
        invariant left <= patch.Keys && (ok <==> forall k :: k in patch.Keys - left ==> PatchOk(rules, k, patch[k]))
        decreases |left|
      {
        var k :| k in left;
        ok := ok && PatchOk(rules, k, patch[k]);
        left := left - {k};
      }
    }

    /** The merge loop of `Patch`: masked secrets are skipped. */
    method Merge(file: Layer, patch: Layer) returns (layer: Layer)
      ensures layer == Merged(rules, file, patch)
    {
      hide IsSentinel, Sensitive;
      layer := file;
      var left := patch.Keys;
      while left != {}
        invariant left <= patch.Keys
        invariant forall k :: k in layer <==> k in file || (k in patch && k !in left && !(Sensitive(rules, k) && IsSentinel(patch[k])))
        invariant forall k :: k in layer ==>
          layer[k] == if k in patch && k !in left && !(Sensitive(rules, k) && IsSentinel(patch[k])) then patch[k] else file[k]
        decreases |left|
      {
        var k :| k in left;
        if !(Sensitive(rules, k) && IsSentinel(patch[k])) {
          layer := layer[k := patch[k]];
        }
        left := left - {k};
      }
    }

    /** The answer shows the manager as it is. */
    ghost predicate Shows(v: View)
      reads this
    {
      && v.effective.Keys == v.sources.Keys == rules.fields.Keys && v.file.Keys == disk.Keys
      && (forall k :: k in rules.fields ==> KeyShown(rules, disk, startup.disk, k, v.effective[k], v.sources[k]))
      && (forall k :: k in disk ==> v.file[k] == Shown(rules, k, disk[k]))
      && Sorted(v.pending)
      && (forall k :: k in v.pending <==> HasDrifted(rules, disk, startup.disk, k))
    }

    method DoPatch(patch: Layer, w: World) returns (view: Option<View>)
      requires Valid()
      modifies this
      ensures Valid() && Snapshot() == After(rules, old(Snapshot()), Patch(patch), w)
      ensures view.Some? == Answered(rules, old(Snapshot()), Patch(patch), w)
      ensures view.Some? ==> Shows(view.value)
    {
      hide Prune, Effective, Sources, PatchOk, Merged, Shows;
      if patch == map[] {
        return None;
      }
      var fine := Precheck(patch);
      if !fine || !w.readable {
        return None;
      }
      var layer := Merge(disk, patch);
      view := PersistAndShow(layer, w);
    }

    /** The common end of `Patch` and `Reset`. */
    method PersistAndShow(layer: Layer, w: World) returns (view: Option<View>)
      requires Valid()
      modifies this
      ensures Valid() && Snapshot() == if w.accepts(layer) && w.saves then Boot(rules, Prune(rules, layer)) else old(Snapshot())
      ensures view.Some? == (w.accepts(layer) && w.saves && w.rereadable)
      ensures view.Some? ==> Shows(view.value)
    {
      hide Prune, Effective, Sources, Shows;
      var ok := Persist(layer, w);
      if !ok || !w.rereadable {
        return None;
      }
      var v := BuildView();
      view := Some(v);
    }

    method DoReset(keys: seq<string>, all: bool, w: World) returns (view: Option<View>)
      requires Valid()
      modifies this
      ensures Valid() && Snapshot() == After(rules, old(Snapshot()), Reset(keys, all), w)
      ensures view.Some? == Answered(rules, old(Snapshot()), Reset(keys, all), w)
      ensures view.Some? ==> Shows(view.value)
    {
      hide Prune, Effective, Sources, Shows;
      if (all && |keys| > 0) || (!all && |keys| == 0) || !w.readable {
        return None;
      }
      var layer := disk;
      if all {
        layer := KeptByResetAll(rules, disk);
      } else {
        var bad := false;
        for i := 0 to |keys|
          invariant bad <==> exists k :: k in keys[..i] && !(k in rules.fields && !rules.fields[k].isInternal)
          invariant !bad ==> layer == disk - set k | k in keys[..i]
          invariant disk == old(disk) && eff == old(eff) && src == old(src) && Valid()
        {
          assert keys[..i + 1] == keys[..i] + [keys[i]];
          if keys[i] !in rules.fields || rules.fields[keys[i]].isInternal {
            bad := true;
          } else {
            layer := layer - {keys[i]};
          }
        }
        assert keys[..|keys|] == keys;
        if bad {
          return None;
        }
      }
      view := PersistAndShow(layer, w);
    }

    /** `buildView`: restart-required keys stay at their startup value and are listed once they drift. */
    method BuildView() returns (v: View)
      requires Valid()
      ensures Shows(v)
    {
      hide Effective, Sources, Shown, KeyShown, HasDrifted, Sorted;
      var shown, srcs, pending := ShowAll();
      DriftedKnown(rules, disk, startup.disk);
      v := View(shown, map k | k in disk :: Shown(rules, k, disk[k]), srcs, pending);
    }

    /** The loop over the schema. */
    method ShowAll() returns (shown: Layer, srcs: map<string, Source>, pending: seq<string>)
      requires Valid()
      ensures shown.Keys == srcs.Keys == rules.fields.Keys && Sorted(pending)
      ensures forall k :: k in rules.fields ==> KeyShown(rules, disk, startup.disk, k, shown[k], srcs[k])
      ensures forall k :: k in pending <==> k in rules.fields && HasDrifted(rules, disk, startup.disk, k)
    {
      hide Effective, Sources, Shown, Less, KeyShown, HasDrifted, Sorted;
      shown, srcs, pending := map[], map[], [];
      EmptySorted();
      var left := rules.fields.Keys;
      while left != {}
        invariant left <= rules.fields.Keys && shown.Keys == srcs.Keys == rules.fields.Keys - left
        invariant forall k :: k in shown ==> KeyShown(rules, disk, startup.disk, k, shown[k], srcs[k])
        invariant Sorted(pending)
        invariant forall k :: k in pending <==> k in rules.fields && k !in left && HasDrifted(rules, disk, startup.disk, k)
        decreases |left|
      {
        var k :| k in left;
        var visible, source, drifted := ShowKey(k);
        if drifted {
          pending := InsertSorted(pending, k);
        }
        shown, srcs := shown[k := visible], srcs[k := source];
        left := left - {k};
      }
    }

    /** The body of the loop over the schema. */
    method ShowKey(k: string) returns (visible: Value, source: Source, drifted: bool)
      requires Valid()
      requires k in rules.fields
      ensures KeyShown(rules, disk, startup.disk, k, visible, source) && drifted == HasDrifted(rules, disk, startup.disk, k)
    {
      hide Effective, Sources, SameJson, MaskValue;
      EffectiveKeys(rules, disk);
      EffectiveKeys(rules, startup.disk);
      visible, source, drifted := eff[k], src[k], false;
      if rules.fields[k].restart {
        drifted := !SameJson(visible, startup.eff[k]);
        visible, source := startup.eff[k], startup.src[k];
      }
      if rules.fields[k].sensitive {
        visible := MaskValue(visible);
      }
    }
  }

  lemma DriftedKnown(r: Rules, disk: Layer, startup: Layer)
    ensures forall k :: HasDrifted(r, disk, startup, k) ==> k in r.fields
  {
  }

  lemma EmptySorted()
    ensures Sorted([])
  {
  }
}
