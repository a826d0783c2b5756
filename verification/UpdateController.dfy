/** `UpdateController` of desktop/src/update-controller.ts with `verifyPending` of
    desktop/src/update-store.ts. One step per stretch of code between two awaits. */
module UpdateController {
  import opened Options

  datatype Format = Nsis | Mac | AppImage | Other

  /** A file the feed lists: its base name and checksum. */
  datatype FeedFile = FeedFile(name: string, sha: string)
  datatype Offer = Offer(version: string, files: seq<FeedFile>)
  datatype Pending = Pending(version: string, format: Format, name: string, sha: string)

  datatype Check = NoCheck | CheckQueued | CheckFeed | CheckVerify(offer: Offer, pending: Option<Pending>) | CheckLinks | CheckLeaves(failed: bool)
  datatype Download = NoDownload | DownloadQueued | DownloadWaits | Fetching | DownloadVerify(pending: Pending) | DownloadLeaves
  /** Past the verification the stage carries what was verified. */
  datatype Install =
    | NoInstall | InstallQueued | InstallWaits
    | InstallVerify(pending: Pending)
    | InstallAccess(offer: Offer, pending: Pending)
    | Rehydrate(offer: Offer, pending: Pending)
    | PrepareQuit(offer: Offer, pending: Pending)
    | InstallLeaves

  /** `checkFailed`: how the last check ended; `handoffs` and `resumes` count calls of quitAndInstall and resume. */
  datatype Ctl = Ctl(
    format: Format, inApp: bool, enabled: bool,
    info: Option<Offer>, ready: bool, check: Check, checkFailed: bool, download: Download, install: Install,
    downloaded: Option<Pending>, prepared: bool, closing: bool, blocked: bool,
    pending: Option<Pending>, attempt: Option<string>, handoffs: nat, resumes: nat)

  // ----- verifyPending -----

  predicate EndsWith(s: string, t: string) { |t| <= |s| && s[|s| - |t|..] == t }

  function LowerChar(c: char): char { if 'A' <= c <= 'Z' then (c as int + 32) as char else c }

  function Lower(s: string): (r: string)
    ensures |r| == |s|
  {
    seq(|s|, i requires 0 <= i < |s| => LowerChar(s[i]))
  }

  function Extension(f: Format): string { match f case Nsis => ".exe" case Mac => ".zip" case _ => ".appimage" }

  predicate FeedMatches(p: Pending, o: Offer, f: Format) {
    && p.version == o.version && p.format == f
    && exists i :: 0 <= i < |o.files| && o.files[i] == FeedFile(p.name, p.sha) && EndsWith(Lower(p.name), Extension(f))
  }

  /** `digest` is the hash of the cached file, absent when it cannot be read. */
  predicate Verify(p: Pending, o: Offer, f: Format, digest: Option<string>) {
    FeedMatches(p, o, f) && digest == Some(p.sha)
  }

  method VerifyPending(p: Pending, o: Offer, f: Format, digest: Option<string>) returns (ok: bool)
    ensures ok == Verify(p, o, f, digest)
  {
    if p.version != o.version || p.format != f {
      return false;
    }
    var matches := false;
    var i := 0;
    while i < |o.files| && !matches
      invariant 0 <= i <= |o.files|
      invariant matches <==> exists k :: 0 <= k < i && o.files[k] == FeedFile(p.name, p.sha) && EndsWith(Lower(p.name), Extension(f))
    {
      var file := o.files[i];
      matches := file.name == p.name && EndsWith(Lower(file.name), Extension(f)) && file.sha == p.sha;
      i := i + 1;
    }
    ok := matches && digest == Some(p.sha);
  }

  // ----- calls and events -----

  function CallCheck(s: Ctl): Ctl {
    if s.blocked || !s.check.NoCheck? || !s.download.NoDownload? || !s.install.NoInstall? || s.prepared || !s.enabled then s
    else s.(check := CheckQueued)
  }

  /** `requireInApp` throws before anything changes. */
  function CallDownload(s: Ctl): Ctl {
    if !s.inApp || s.blocked || !s.download.NoDownload? || !s.install.NoInstall? || s.prepared then s
    else s.(download := DownloadQueued)
  }

  function CallInstall(s: Ctl): Ctl {
    if !s.inApp || s.blocked || !s.install.NoInstall? || s.prepared then s
    else s.(install := InstallQueued)
  }

  function BeginQuit(s: Ctl): Ctl { if s.prepared then s else s.(closing := true) }

  function CancelQuit(s: Ctl): Ctl { s.(closing := false) }

  function BlockInstall(s: Ctl): Ctl { s.(blocked := true, ready := false) }

  /** The driver's "error" event. */
  function OnError(s: Ctl): Ctl {
    if !s.prepared then s else BlockInstall(s.(prepared := false)).(resumes := s.resumes + 1)
  }

  function OnDownloaded(s: Ctl, p: Pending): Ctl {
    if (!s.download.NoDownload? || !s.install.NoInstall?) && s.info.Some? && p.version == s.info.value.version then s.(downloaded := Some(p))
    else s
  }

  // ----- check -----

  function CheckFails(s: Ctl): Ctl { s.(info := None, ready := false, check := CheckLeaves(true)) }

  function CheckStarts(s: Ctl): Ctl {
    if s.closing then s.(check := CheckLeaves(true)) else s.(ready := false, check := CheckFeed)
  }

  datatype FeedReply = FeedThrew | NoUpdate(saved: bool) | Update(offer: Offer, saved: bool)

  function FeedReturns(s: Ctl, r: FeedReply): Ctl {
    if s.closing || r.FeedThrew? then CheckFails(s)
    else match r
      case NoUpdate(saved) =>
        if saved then s.(info := None, ready := false, pending := None, check := CheckLeaves(false)) else CheckFails(s)
      case Update(offer, saved) =>
        var s1 := s.(info := Some(offer), ready := false);
        if s.pending.Some? && s.inApp then s1.(check := CheckVerify(offer, s.pending))
        else AfterVerify(s1, s.pending, false, saved)
      case FeedThrew => CheckFails(s)
  }

  /** The cached file was judged; a bad one is forgotten, which may fail. */
  function AfterVerify(s: Ctl, pending: Option<Pending>, ok: bool, saved: bool): Ctl {
    if pending.Some? && !ok then if saved then s.(ready := ok, pending := None, check := CheckLinks) else CheckFails(s)
    else s.(ready := ok, check := CheckLinks)
  }

  function CheckVerified(s: Ctl, digest: Option<string>, saved: bool): Ctl
    requires s.check.CheckVerify? && s.check.pending.Some?
  {
    AfterVerify(s, s.check.pending, Verify(s.check.pending.value, s.check.offer, s.format, digest), saved)
  }

  function LinksReturn(s: Ctl, ok: bool): Ctl { if ok then s.(check := CheckLeaves(false)) else CheckFails(s) }

  function CheckFinally(s: Ctl): Ctl
    requires s.check.CheckLeaves?
  {
    s.(check := NoCheck, checkFailed := s.check.failed)
  }

  // ----- download -----

  function DownloadBegins(s: Ctl): Ctl {
    if s.closing || s.info.None? || s.ready then s.(download := DownloadLeaves)
    else s.(downloaded := None, download := Fetching)
  }

  function DownloadStarts(s: Ctl): Ctl { if s.check.NoCheck? then DownloadBegins(s) else s.(download := DownloadWaits) }

  /** Awaiting the check throws when the check did. */
  function DownloadResumes(s: Ctl): Ctl { if s.checkFailed then s.(download := DownloadLeaves) else DownloadBegins(s) }

  function DownloadFails(s: Ctl): Ctl { s.(ready := false, download := DownloadLeaves) }

  function Fetched(s: Ctl, ok: bool, checksum: bool): Ctl {
    if !ok || s.closing || s.downloaded.None? || !checksum then DownloadFails(s)
    else s.(download := DownloadVerify(s.downloaded.value.(format := s.format)))
  }

  function DownloadVerified(s: Ctl, digest: Option<string>, saved: bool): Ctl
    requires s.download.DownloadVerify?
  {
    if s.info.Some? && Verify(s.download.pending, s.info.value, s.format, digest) && saved then
      s.(pending := Some(s.download.pending), ready := true, download := DownloadLeaves)
    else DownloadFails(s)
  }

  // ----- install -----

  /** The catch clause: a prepared quit is taken back, the attempt is forgotten if the store lets it. */
  function InstallFails(s: Ctl, cleared: bool): Ctl {
    var s1 := if s.prepared then BlockInstall(s.(prepared := false)).(resumes := s.resumes + 1) else s;
    s1.(attempt := if cleared then None else s1.attempt, install := InstallLeaves)
  }

  function InstallBegins(s: Ctl, cleared: bool): Ctl {
    if s.closing || !s.ready || s.info.None? then s.(install := InstallLeaves)
    else if s.pending.None? then InstallFails(s.(ready := false), cleared)
    else s.(install := InstallVerify(s.pending.value))
  }

  function InstallStarts(s: Ctl, cleared: bool): Ctl { if s.check.NoCheck? then InstallBegins(s, cleared) else s.(install := InstallWaits) }

  function InstallResumes(s: Ctl, cleared: bool): Ctl { if s.checkFailed then s.(install := InstallLeaves) else InstallBegins(s, cleared) }

  function InstallVerified(s: Ctl, digest: Option<string>, saved: bool, cleared: bool): Ctl
    requires s.install.InstallVerify?
  {
    var p := s.install.pending;
    if s.info.Some? && Verify(p, s.info.value, s.format, digest) then
      s.(install := if s.format.AppImage? then InstallAccess(s.info.value, p) else Rehydrate(s.info.value, p))
    else InstallFails(s.(ready := false, pending := if saved then None else s.pending), cleared)
  }

  function Accessed(s: Ctl, ok: bool, cleared: bool): Ctl
    requires s.install.InstallAccess?
  {
    if ok then s.(install := Rehydrate(s.install.offer, s.install.pending)) else InstallFails(s, cleared)
  }

  function Rehydrated(s: Ctl, ok: bool, saved: bool, cleared: bool): Ctl
    requires s.install.Rehydrate?
  {
    if !ok || s.closing || s.info.None? || !saved then InstallFails(s, cleared)
    else s.(attempt := Some(s.info.value.version), install := PrepareQuit(s.install.offer, s.install.pending))
  }

  /** How `quitAndInstall` itself goes: it may throw and it may emit "error" before it returns. */
  datatype Handoff = Handoff(emits: bool, throws: bool)

  function QuitPrepared(s: Ctl, ok: bool, h: Handoff, cleared: bool): Ctl {
    if !ok || s.closing then InstallFails(s, cleared)
    else
      var s1 := s.(prepared := true, handoffs := s.handoffs + 1);
      var s2 := if h.emits then OnError(s1) else s1;
      if h.emits || h.throws then InstallFails(s2, cleared) else s2.(install := InstallLeaves)
  }

  // ----- steps -----

  datatype Step =
    | Checking | Downloading | Installing | Quitting | Staying       // calls
    | Error | Downloaded(p: Pending)                                 // driver events
    | CheckRuns | Feed(r: FeedReply) | Judged(digest: Option<string>, saved: bool) | Links(ok: bool) | CheckEnds
    | DownloadRuns | DownloadWakes | Fetch(ok: bool, checksum: bool) | Hashed(digest: Option<string>, saved: bool) | DownloadEnds
    | InstallRuns(cleared: bool) | InstallWakes(cleared: bool) | Reverified(digest: Option<string>, saved: bool, cleared: bool)
    | Writable(ok: bool, cleared: bool) | Cached(ok: bool, saved: bool, cleared: bool)
    | Stopped(ok: bool, h: Handoff, cleared: bool) | InstallEnds

  predicate Enabled(s: Ctl, step: Step) {
    match step
    case CheckRuns => s.check.CheckQueued?
    case Feed(_) => s.check.CheckFeed?
    case Judged(_, _) => s.check.CheckVerify? && s.check.pending.Some?
    case Links(_) => s.check.CheckLinks?
    case CheckEnds => s.check.CheckLeaves?
    case DownloadRuns => s.download.DownloadQueued?
    case DownloadWakes => s.download.DownloadWaits? && s.check.NoCheck?
    case Fetch(_, _) => s.download.Fetching?
    case Hashed(_, _) => s.download.DownloadVerify?
    case DownloadEnds => s.download.DownloadLeaves?
    case InstallRuns(_) => s.install.InstallQueued?
    case InstallWakes(_) => s.install.InstallWaits? && s.check.NoCheck?
    case Reverified(_, _, _) => s.install.InstallVerify?
    case Writable(_, _) => s.install.InstallAccess?
    case Cached(_, _, _) => s.install.Rehydrate?
    case Stopped(_, _, _) => s.install.PrepareQuit?
    case InstallEnds => s.install.InstallLeaves?
    case _ => true
  }

  function Apply(s: Ctl, step: Step): Ctl
    requires Enabled(s, step)
  {
    match step
    case Checking => CallCheck(s)
    case Downloading => CallDownload(s)
    case Installing => CallInstall(s)
    case Quitting => BeginQuit(s)
    case Staying => CancelQuit(s)
    case Error => OnError(s)
    case Downloaded(p) => OnDownloaded(s, p)
    case CheckRuns => CheckStarts(s)
    case Feed(r) => FeedReturns(s, r)
    case Judged(digest, saved) => CheckVerified(s, digest, saved)
    case Links(ok) => LinksReturn(s, ok)
    case CheckEnds => CheckFinally(s)
    case DownloadRuns => DownloadStarts(s)
    case DownloadWakes => DownloadResumes(s)
    case Fetch(ok, checksum) => Fetched(s, ok, checksum)
    case Hashed(digest, saved) => DownloadVerified(s, digest, saved)
    case DownloadEnds => s.(download := NoDownload)
    case InstallRuns(cleared) => InstallStarts(s, cleared)
    case InstallWakes(cleared) => InstallResumes(s, cleared)
    case Reverified(digest, saved, cleared) => InstallVerified(s, digest, saved, cleared)
    case Writable(ok, cleared) => Accessed(s, ok, cleared)
    case Cached(ok, saved, cleared) => Rehydrated(s, ok, saved, cleared)
    case Stopped(ok, h, cleared) => QuitPrepared(s, ok, h, cleared)
    case InstallEnds => s.(install := NoInstall)
  }

  // ----- invariant -----

  predicate DownloadRunning(s: Ctl) { s.download.Fetching? || s.download.DownloadVerify? }

  predicate InstallRunning(s: Ctl) {
    s.install.InstallVerify? || s.install.InstallAccess? || s.install.Rehydrate? || s.install.PrepareQuit?
  }

  /** An offer is ready only with a matching record of a verified file. */
  predicate ReadyOk(s: Ctl) {
    s.ready ==> s.inApp && s.info.Some? && s.pending.Some? && FeedMatches(s.pending.value, s.info.value, s.format)
  }

  /** The three operations exclude each other past their entry. */
  predicate Exclusive(s: Ctl) {
    && (!s.download.NoDownload? || !s.install.NoInstall? ==> s.inApp)
    && (DownloadRunning(s) ==> s.check.NoCheck? && !s.ready && !InstallRunning(s))
    && (InstallRunning(s) ==> s.check.NoCheck? && s.ready && s.info.Some?)
    && (s.check.CheckVerify? ==> !s.ready && s.inApp && s.info == Some(s.check.offer) && s.check.pending == s.pending)
    && (s.check.CheckFeed? ==> !s.ready)
    && (s.check.CheckLinks? ==> s.info.Some?)
  }

  /** What was verified is still what is offered and stored. */
  predicate StillVerified(s: Ctl) {
    && (s.install.InstallVerify? ==> s.pending == Some(s.install.pending))
    && ((s.install.InstallAccess? || s.install.Rehydrate? || s.install.PrepareQuit?) ==>
          && s.info == Some(s.install.offer) && s.pending == Some(s.install.pending)
          && FeedMatches(s.install.pending, s.install.offer, s.format))
    && (s.install.PrepareQuit? ==> s.attempt == Some(s.install.offer.version))
  }

  /** One handoff in a process: from then on the quit is prepared or installing is blocked. */
  predicate HandoffOk(s: Ctl) {
    && s.handoffs <= 1
    && (s.prepared <==> s.handoffs == 1 && !s.blocked) && (s.blocked ==> s.handoffs == 1)
    && s.resumes == (if s.blocked then 1 else 0)
    && !(s.prepared && s.closing)
    && ((s.install.InstallQueued? || s.install.InstallWaits? || InstallRunning(s)) ==> s.handoffs == 0)
  }

  predicate Inv(s: Ctl) { ReadyOk(s) && Exclusive(s) && StillVerified(s) && HandoffOk(s) }

  /** A new controller: whatever the store holds, nothing is offered or ready. */
  predicate Init(s: Ctl) {
    && s.info.None? && !s.ready && s.check.NoCheck? && s.download.NoDownload? && s.install.NoInstall?
    && !s.prepared && !s.closing && !s.blocked && s.handoffs == 0 && s.resumes == 0
  }

  lemma InitInv(s: Ctl)
    requires Init(s)
    ensures Inv(s)
  {
  }

  /** Past the verification of an install. */
  predicate PastVerify(i: Install) { i.InstallAccess? || i.Rehydrate? || i.PrepareQuit? }

  /** What all steps but the verification and the handoff share. */
  predicate Quiet(s: Ctl, s': Ctl) {
    && s'.handoffs == s.handoffs && (s.blocked ==> s'.blocked)
    && (PastVerify(s'.install) ==> PastVerify(s.install) && s.install.offer == s'.install.offer && s.install.pending == s'.install.pending)
  }

  lemma VerifyMatches(p: Pending, o: Offer, f: Format, digest: Option<string>)
    ensures Verify(p, o, f, digest) ==> FeedMatches(p, o, f)
  {
  }

  lemma CallKeeps(s: Ctl, step: Step)
    requires Inv(s) && Enabled(s, step)
    requires step.Checking? || step.Downloading? || step.Installing? || step.Quitting? || step.Staying? || step.Error? || step.Downloaded?
    ensures Inv(Apply(s, step)) && Quiet(s, Apply(s, step))
  {
    hide FeedMatches;
  }

  /** A check changes the offer and the record only while nothing else runs. */
  lemma CheckMoves(s: Ctl, s': Ctl)
    requires Inv(s) && !s.check.NoCheck?
    requires s' == s.(info := s'.info, ready := s'.ready, pending := s'.pending, check := s'.check, checkFailed := s'.checkFailed)
    requires ReadyOk(s')
    requires s'.check.CheckVerify? ==> !s'.ready && s'.inApp && s'.info == Some(s'.check.offer) && s'.check.pending == s'.pending
    requires (s'.check.CheckFeed? ==> !s'.ready) && (s'.check.CheckLinks? ==> s'.info.Some?)
    ensures Inv(s') && Quiet(s, s')
  {
    hide FeedMatches, ReadyOk;
  }

  lemma FeedKeeps(s: Ctl, r: FeedReply)
    requires Inv(s) && s.check.CheckFeed?
    ensures Inv(FeedReturns(s, r)) && Quiet(s, FeedReturns(s, r))
  {
    hide FeedMatches, Quiet, StillVerified, HandoffOk;
    if r.Update? && !s.closing {
      OfferKeeps(s, r.offer, r.saved);
    } else {
      hide AfterVerify;
      CheckMoves(s, FeedReturns(s, r));
    }
  }

  lemma OfferKeeps(s: Ctl, offer: Offer, saved: bool)
    requires Inv(s) && s.check.CheckFeed? && !s.closing
    ensures Inv(FeedReturns(s, Update(offer, saved))) && Quiet(s, FeedReturns(s, Update(offer, saved)))
  {
    hide FeedMatches, Quiet, StillVerified, HandoffOk;
    var s' := FeedReturns(s, Update(offer, saved));
    assert s' == s.(info := s'.info, ready := false, pending := s'.pending, check := s'.check);
    CheckMoves(s, s');
  }

  lemma JudgeKeeps(s: Ctl, digest: Option<string>, saved: bool)
    requires Inv(s) && s.check.CheckVerify? && s.check.pending.Some?
    ensures Inv(CheckVerified(s, digest, saved)) && Quiet(s, CheckVerified(s, digest, saved))
  {
    VerifyMatches(s.check.pending.value, s.check.offer, s.format, digest);
    hide FeedMatches, Quiet, StillVerified, HandoffOk, Verify;
    CheckMoves(s, CheckVerified(s, digest, saved));
  }

  lemma CheckStartKeeps(s: Ctl)
    requires Inv(s) && s.check.CheckQueued?
    ensures Inv(CheckStarts(s)) && Quiet(s, CheckStarts(s))
  {
    hide FeedMatches, Quiet, StillVerified, HandoffOk;
    CheckMoves(s, CheckStarts(s));
  }

  lemma LinksKeep(s: Ctl, ok: bool)
    requires Inv(s) && s.check.CheckLinks?
    ensures Inv(LinksReturn(s, ok)) && Quiet(s, LinksReturn(s, ok))
  {
    hide FeedMatches, Quiet, StillVerified, HandoffOk;
    CheckMoves(s, LinksReturn(s, ok));
  }

  lemma CheckEndKeeps(s: Ctl)
    requires Inv(s) && s.check.CheckLeaves?
    ensures Inv(CheckFinally(s)) && Quiet(s, CheckFinally(s))
  {
    hide FeedMatches, Quiet, StillVerified, HandoffOk;
    CheckMoves(s, CheckFinally(s));
  }

  lemma DownloadEnters(s: Ctl, step: Step)
    requires Inv(s) && Enabled(s, step) && (step.DownloadRuns? || step.DownloadWakes? || step.DownloadEnds?)
    ensures Inv(Apply(s, step)) && Quiet(s, Apply(s, step))
  {
    hide FeedMatches;
  }

  lemma FetchKeeps(s: Ctl, ok: bool, checksum: bool)
    requires Inv(s) && s.download.Fetching?
    ensures Inv(Fetched(s, ok, checksum)) && Quiet(s, Fetched(s, ok, checksum))
  {
    hide FeedMatches;
  }

  lemma HashKeeps(s: Ctl, digest: Option<string>, saved: bool)
    requires Inv(s) && s.download.DownloadVerify?
    ensures Inv(DownloadVerified(s, digest, saved)) && Quiet(s, DownloadVerified(s, digest, saved))
  {
    if s.info.Some? {
      VerifyMatches(s.download.pending, s.info.value, s.format, digest);
    }
    hide FeedMatches, Verify;
  }

  lemma FailKeeps(s: Ctl, cleared: bool)
    requires Inv(s) && InstallRunning(s)
    ensures Inv(InstallFails(s.(ready := false), cleared)) && Quiet(s, InstallFails(s.(ready := false), cleared))
    ensures Inv(InstallFails(s, cleared)) && Quiet(s, InstallFails(s, cleared))
    ensures Inv(InstallFails(s.(ready := false, pending := None), cleared)) && Quiet(s, InstallFails(s.(ready := false, pending := None), cleared))
  {
    hide FeedMatches;
  }

  lemma BeginKeeps(s: Ctl, cleared: bool)
    requires Inv(s) && (s.install.InstallQueued? || s.install.InstallWaits?) && s.check.NoCheck?
    ensures Inv(InstallBegins(s, cleared)) && Quiet(s, InstallBegins(s, cleared))
  {
    hide FeedMatches;
  }

  lemma InstallEnters(s: Ctl, step: Step)
    requires Inv(s) && Enabled(s, step) && (step.InstallRuns? || step.InstallWakes? || step.InstallEnds?)
    ensures Inv(Apply(s, step)) && Quiet(s, Apply(s, step))
  {
    if step.InstallRuns? && s.check.NoCheck? {
      BeginKeeps(s, step.cleared);
    } else if step.InstallWakes? && !s.checkFailed {
      BeginKeeps(s, step.cleared);
    }
    hide FeedMatches, InstallBegins;
  }

  lemma InstallProceeds(s: Ctl, step: Step)
    requires Inv(s) && Enabled(s, step) && (step.Writable? || step.Cached?)
    ensures Inv(Apply(s, step)) && Quiet(s, Apply(s, step))
  {
    FailKeeps(s, step.cleared);
    hide FeedMatches, InstallFails;
  }

  /** The stages behind the verification are entered only by a verification of this very pair. */
  lemma ReverifyKeeps(s: Ctl, digest: Option<string>, saved: bool, cleared: bool)
    requires Inv(s) && s.install.InstallVerify?
    ensures var s' := InstallVerified(s, digest, saved, cleared);
      && Inv(s') && s'.handoffs == s.handoffs && (s.blocked ==> s'.blocked)
      && (PastVerify(s'.install) ==>
            && s.info == Some(s'.install.offer) && s.pending == Some(s'.install.pending)
            && Verify(s'.install.pending, s'.install.offer, s.format, digest))
  {
    VerifyMatches(s.install.pending, s.info.value, s.format, digest);
    FailKeeps(s, cleared);
    hide FeedMatches, Verify, InstallFails;
  }

  lemma HandoffKeeps(s: Ctl, ok: bool, h: Handoff, cleared: bool)
    requires Inv(s) && s.install.PrepareQuit?
    ensures Inv(QuitPrepared(s, ok, h, cleared)) && !PastVerify(QuitPrepared(s, ok, h, cleared).install)
    ensures QuitPrepared(s, ok, h, cleared).handoffs == if ok && !s.closing then s.handoffs + 1 else s.handoffs
  {
    hide FeedMatches, Verify;
  }

  lemma QuietStep(s: Ctl, step: Step)
    requires Inv(s) && Enabled(s, step) && !step.Reverified? && !step.Stopped?
    ensures Inv(Apply(s, step)) && Quiet(s, Apply(s, step))
  {
    hide Inv, Quiet, FeedReturns, CheckVerified, Fetched, DownloadVerified, Verify;
    match step {
      case Feed(r) => FeedKeeps(s, r);
      case Judged(digest, saved) => JudgeKeeps(s, digest, saved);
      case Fetch(ok, checksum) => FetchKeeps(s, ok, checksum);
      case Hashed(digest, saved) => HashKeeps(s, digest, saved);
      case CheckRuns => CheckStartKeeps(s);
      case Links(ok) => LinksKeep(s, ok);
      case CheckEnds => CheckEndKeeps(s);
      case DownloadRuns => DownloadEnters(s, step);
      case DownloadWakes => DownloadEnters(s, step);
      case DownloadEnds => DownloadEnters(s, step);
      case InstallRuns(_) => InstallEnters(s, step);
      case InstallWakes(_) => InstallEnters(s, step);
      case InstallEnds => InstallEnters(s, step);
      case Writable(_, _) => InstallProceeds(s, step);
      case Cached(_, _, _) => InstallProceeds(s, step);
      case _ => CallKeeps(s, step);
    }
  }

  lemma StepKeeps(s: Ctl, step: Step)
    requires Inv(s) && Enabled(s, step)
    ensures Inv(Apply(s, step))
  {
    hide Inv, InstallVerified, QuitPrepared, Verify;
    if step.Stopped? {
      HandoffKeeps(s, step.ok, step.h, step.cleared);
    } else if step.Reverified? {
      ReverifyKeeps(s, step.digest, step.saved, step.cleared);
    } else {
      QuietStep(s, step);
    }
  }

  // ----- whole process lives -----

  ghost predicate IsStep(s: Ctl, step: Step, s': Ctl) { Enabled(s, step) && s' == Apply(s, step) }

  ghost predicate IsRun(run: seq<Ctl>, steps: seq<Step>) {
    |run| == |steps| + 1 && Init(run[0]) && forall i :: 0 <= i < |steps| ==> IsStep(run[i], steps[i], run[i + 1])
  }

  lemma {:induction false} RunKeeps(run: seq<Ctl>, steps: seq<Step>, i: nat)
    requires IsRun(run, steps) && i < |run|
    ensures Inv(run[i])
  {
    hide Inv, Apply, Enabled;
    if i == 0 {
      InitInv(run[0]);
    } else {
      RunKeeps(run, steps, i - 1);
      assert IsStep(run[i - 1], steps[i - 1], run[i]);
      StepKeeps(run[i - 1], steps[i - 1]);
    }
  }

  /** "Ready" always means: a current offer, and a stored file record of that version that the offer lists. */
  lemma ReadyMeans(run: seq<Ctl>, steps: seq<Step>, i: nat)
    requires IsRun(run, steps) && i < |run| && run[i].ready
    ensures run[i].inApp && run[i].info.Some? && run[i].pending.Some?
    ensures run[i].pending.value.version == run[i].info.value.version
    ensures FeedMatches(run[i].pending.value, run[i].info.value, run[i].format)
  {
    hide Lower, EndsWith;
    RunKeeps(run, steps, i);
  }

  /** `quitAndInstall` is called only in the install operation, never while an ordinary quit has closed
      the controller, for the offer and file record verified in that operation, with the attempt recorded. */
  lemma HandoffCondition(s: Ctl, step: Step)
    requires Inv(s) && Enabled(s, step) && Apply(s, step).handoffs != s.handoffs
    ensures step.Stopped? && step.ok && Apply(s, step).handoffs == s.handoffs + 1 == 1
    ensures !s.closing && !s.prepared && !s.blocked && s.ready
    ensures s.info == Some(s.install.offer) && s.pending == Some(s.install.pending)
    ensures FeedMatches(s.install.pending, s.install.offer, s.format) && s.attempt == Some(s.install.offer.version)
  {
    hide FeedMatches, Verify, InstallVerified, QuitPrepared;
    if step.Stopped? {
      HandoffKeeps(s, step.ok, step.h, step.cleared);
    } else if step.Reverified? {
      ReverifyKeeps(s, step.digest, step.saved, step.cleared);
    } else {
      hide Apply;
      QuietStep(s, step);
    }
  }

  /** An install gets past its verification only by verifying this very pair in the same operation. */
  lemma VerifiedInOperation(s: Ctl, step: Step)
    requires Inv(s) && Enabled(s, step) && PastVerify(Apply(s, step).install)
    ensures var i := Apply(s, step).install;
      || (PastVerify(s.install) && s.install.offer == i.offer && s.install.pending == i.pending)
      || (step.Reverified? && s.info == Some(i.offer) && s.pending == Some(i.pending) && Verify(i.pending, i.offer, s.format, step.digest))
  {
    hide Inv, InstallVerified, QuitPrepared, Verify;
    if step.Stopped? {
      HandoffKeeps(s, step.ok, step.h, step.cleared);
    } else if step.Reverified? {
      ReverifyKeeps(s, step.digest, step.saved, step.cleared);
    } else {
      QuietStep(s, step);
    }
  }

  /** The same install operation has been past its verification, with the same pair, from `k + 1` to `i`. */
  predicate PastSince(run: seq<Ctl>, k: nat, i: nat)
    requires k < i < |run|
  {
    PastVerify(run[i].install) && forall m :: k < m <= i ==>
      (PastVerify(run[m].install) && run[m].install.offer == run[i].install.offer && run[m].install.pending == run[i].install.pending)
  }

  /** Step `k` verified the cached file of record `p` against the offer `o`, both current at that moment. */
  predicate VerifiedAt(run: seq<Ctl>, steps: seq<Step>, k: nat, p: Pending, o: Offer)
    requires k < |steps| <= |run|
  {
    && steps[k].Reverified? && run[k].install == InstallVerify(p)
    && run[k].info == Some(o) && run[k].pending == Some(p) && Verify(p, o, run[k].format, steps[k].digest)
  }

  /** Whenever an install is past its verification, some earlier step of this same operation was that verification. */
  lemma {:induction false} VerifiedBefore(run: seq<Ctl>, steps: seq<Step>, i: nat) returns (k: nat)
    requires IsRun(run, steps) && i < |run| && PastVerify(run[i].install)
    ensures |run| == |steps| + 1 && k < i && PastSince(run, k, i)
    ensures VerifiedAt(run, steps, k, run[i].install.pending, run[i].install.offer)
  {
    hide Inv, Apply, Enabled, Verify;
    if i == 0 {
      assert false;
    } else {
      RunKeeps(run, steps, i - 1);
      assert IsStep(run[i - 1], steps[i - 1], run[i]);
      VerifiedInOperation(run[i - 1], steps[i - 1]);
      k := i - 1;
      if !(steps[i - 1].Reverified? && PastVerify(run[i].install)
           && run[i - 1].info == Some(run[i].install.offer) && run[i - 1].pending == Some(run[i].install.pending)
           && Verify(run[i].install.pending, run[i].install.offer, run[i - 1].format, steps[i - 1].digest)) {
        k := VerifiedBefore(run, steps, i - 1);
      } else {
        ReverifiesRecord(run[i - 1], steps[i - 1]);
      }
    }
  }

  lemma ReverifiesRecord(s: Ctl, step: Step)
    requires Inv(s) && Enabled(s, step) && step.Reverified?
    ensures s.install.InstallVerify? && s.pending == Some(s.install.pending)
  {
    hide FeedMatches;
  }

  /** Every call of `quitAndInstall` in a process life comes after a verification, within the same install
      operation, of the very offer and record that are still current at the call. */
  lemma HandoffVerified(run: seq<Ctl>, steps: seq<Step>, i: nat) returns (k: nat)
    requires IsRun(run, steps) && i < |steps| && |run| == |steps| + 1 && run[i + 1].handoffs != run[i].handoffs
    ensures run[i].install.PrepareQuit? && k < i && PastSince(run, k, i)
    ensures VerifiedAt(run, steps, k, run[i].install.pending, run[i].install.offer)
    ensures run[i].info == Some(run[i].install.offer) && run[i].pending == Some(run[i].install.pending)
  {
    hide Apply, Verify, FeedMatches, Init, Exclusive, StillVerified, ReadyOk, HandoffOk;
    RunKeeps(run, steps, i);
    assert IsStep(run[i], steps[i], run[i + 1]);
    HandoffCondition(run[i], steps[i]);
    assert run[i].install.PrepareQuit?;
    k := VerifiedBefore(run, steps, i);
  }

  /** In a whole process life the updater is handed control at most once, and the app is resumed once
      for a handoff that failed and otherwise never; a failed handoff blocks installing for good. */
  lemma HandedOverOnce(run: seq<Ctl>, steps: seq<Step>, i: nat)
    requires IsRun(run, steps) && i < |run|
    ensures run[i].handoffs <= 1 && run[i].resumes <= run[i].handoffs
    ensures run[i].resumes == 1 <==> run[i].blocked
    ensures run[i].handoffs == 1 && run[i].resumes == 0 <==> run[i].prepared
    ensures !(run[i].prepared && run[i].closing)
  {
    hide FeedMatches;
    RunKeeps(run, steps, i);
  }

  lemma BlockedStep(s: Ctl, step: Step)
    requires Inv(s) && Enabled(s, step) && s.blocked
    ensures Apply(s, step).blocked && Apply(s, step).handoffs == s.handoffs && !Apply(s, step).prepared
  {
    hide FeedMatches, Verify, InstallVerified, QuitPrepared, ReadyOk, Exclusive, StillVerified;
    assert !step.Stopped? && !step.Reverified?;
    hide Apply;
    QuietStep(s, step);
  }

  lemma {:induction false} BlockedForGood(run: seq<Ctl>, steps: seq<Step>, i: nat, k: nat)
    requires IsRun(run, steps) && i <= k < |run| && run[i].blocked
    ensures run[k].blocked && run[k].handoffs == 1 && run[k].resumes == 1 && !run[k].prepared
    decreases k
  {
    hide Apply, Enabled, FeedMatches, Init, Exclusive, StillVerified, ReadyOk;
    RunKeeps(run, steps, k);
    if i < k {
      BlockedForGood(run, steps, i, k - 1);
      RunKeeps(run, steps, k - 1);
      assert IsStep(run[k - 1], steps[k - 1], run[k]);
      BlockedStep(run[k - 1], steps[k - 1]);
    }
  }

  /** A check, a download and an install never run past their entry at the same time. */
  lemma OneAtATime(run: seq<Ctl>, steps: seq<Step>, i: nat)
    requires IsRun(run, steps) && i < |run|
    ensures !(DownloadRunning(run[i]) && InstallRunning(run[i]))
    ensures DownloadRunning(run[i]) || InstallRunning(run[i]) ==> run[i].check.NoCheck?
  {
    hide FeedMatches;
    RunKeeps(run, steps, i);
  }

  // ----- the class -----

  class Controller {
    const format: Format
    const inApp: bool
    const enabled: bool
    var info: Option<Offer>
    var ready: bool
    var checkOperation: Check
    var checkFailed: bool
    var downloadOperation: Download
    var installOperation: Install
    var downloaded: Option<Pending>
    var prepared: bool
    var closing: bool
    var installBlocked: bool
    var storedPending: Option<Pending>
    var storedAttempt: Option<string>
    ghost var handoffs: nat
    ghost var resumes: nat

    ghost function View(): Ctl
      reads this
    {
      Ctl(format, inApp, enabled, info, ready, checkOperation, checkFailed, downloadOperation, installOperation, downloaded,
          prepared, closing, installBlocked, storedPending, storedAttempt, handoffs, resumes)
    }

    /** An attempt on record is over, and a pending file of the running version is of no use
        (`UpdateStore.reconcile`). */
    constructor (format: Format, inApp: bool, enabled: bool, stored: Option<Pending>, attempt: Option<string>, currentVersion: string)
      ensures Init(View()) && View().attempt.None?
      ensures storedPending == if attempt.Some? && stored.Some? && stored.value.version == currentVersion then None else stored
    {
      this.format, this.inApp, this.enabled := format, inApp, enabled;
      info, ready, downloaded, prepared, closing, installBlocked := None, false, None, false, false, false;
      checkOperation, checkFailed, downloadOperation, installOperation := NoCheck, false, NoDownload, NoInstall;
      storedPending := if attempt.Some? && stored.Some? && stored.value.version == currentVersion then None else stored;
      storedAttempt, handoffs, resumes := None, 0, 0;
    }

    method DoCheck()
      modifies this
      ensures View() == CallCheck(old(View()))
    {
      if installBlocked || !checkOperation.NoCheck? {
        return;
      }
      if !downloadOperation.NoDownload? || !installOperation.NoInstall? || prepared {
        return;
      }
      if enabled {
        checkOperation := CheckQueued;
      }
    }

    method DoDownload() returns (ok: bool)
      modifies this
      ensures ok == (inApp && !old(installBlocked)) && View() == CallDownload(old(View()))
    {
      ok := inApp && !installBlocked;
      if !ok || !downloadOperation.NoDownload? || !installOperation.NoInstall? || prepared {
        return;
      }
      downloadOperation := DownloadQueued;
    }

    method RestartAndInstall() returns (ok: bool)
      modifies this
      ensures ok == (inApp && !old(installBlocked)) && View() == CallInstall(old(View()))
    {
      ok := inApp && !installBlocked;
      if !ok || !installOperation.NoInstall? || prepared {
        return;
      }
      installOperation := InstallQueued;
    }

    method DoBeginQuit()
      modifies this`closing
      ensures View() == BeginQuit(old(View()))
    {
      if prepared {
        return;
      }
      closing := true;
    }

    method DoCancelQuit()
      modifies this`closing
      ensures View() == CancelQuit(old(View()))
    {
      if !closing {
        return;
      }
      closing := false;
    }

    method DriverError()
      modifies this`prepared, this`installBlocked, this`ready, this`resumes
      ensures View() == OnError(old(View()))
    {
      if !prepared {
        return;
      }
      prepared := false;
      installBlocked, ready := true, false;
      resumes := resumes + 1;
    }

    method DriverDownloaded(p: Pending)
      modifies this`downloaded
      ensures View() == OnDownloaded(old(View()), p)
    {
      if (!downloadOperation.NoDownload? || !installOperation.NoInstall?) && info.Some? && p.version == info.value.version {
        downloaded := Some(p);
      }
    }

    method FailCheck()
      modifies this`info, this`ready, this`checkOperation
      ensures View() == CheckFails(old(View()))
    {
      info, ready := None, false;
      checkOperation := CheckLeaves(true);
    }

    method CheckBegins()
      modifies this`ready, this`checkOperation
      ensures View() == CheckStarts(old(View()))
    {
      if closing {
        checkOperation := CheckLeaves(true);
        return;
      }
      ready := false;
      checkOperation := CheckFeed;
    }

    /** From the feed's answer to the verification of the cached file. */
    method FeedAnswered(r: FeedReply)
      modifies this`info, this`ready, this`checkOperation, this`storedPending
      ensures View() == FeedReturns(old(View()), r)
    {
      if closing || r.FeedThrew? {
        FailCheck();
        return;
      }
      info := if r.Update? then Some(r.offer) else None;
      ready := false;
      if r.NoUpdate? {
        if !r.saved {
          FailCheck();
          return;
        }
        storedPending := None;
        checkOperation := CheckLeaves(false);
      } else if storedPending.Some? && inApp {
        checkOperation := CheckVerify(r.offer, storedPending);
      } else {
        if storedPending.Some? {
          if !r.saved {
            FailCheck();
            return;
          }
          storedPending := None;
        }
        checkOperation := CheckLinks;
      }
    }

    method BeginDownload()
      modifies this`downloaded, this`downloadOperation
      ensures View() == DownloadBegins(old(View()))
    {
      if closing || info.None? || ready {
        downloadOperation := DownloadLeaves;
        return;
      }
      downloaded := None;
      downloadOperation := Fetching;
    }

    method DownloadFetched(ok: bool, checksum: bool)
      modifies this`ready, this`downloadOperation
      ensures View() == Fetched(old(View()), ok, checksum)
    {
      if !ok || closing || downloaded.None? || !checksum {
        ready := false;
        downloadOperation := DownloadLeaves;
        return;
      }
      var event := downloaded.value;
      downloadOperation := DownloadVerify(Pending(event.version, format, event.name, event.sha));
    }

    method CachedFileJudged(digest: Option<string>, saved: bool)
      requires checkOperation.CheckVerify? && checkOperation.pending.Some?
      modifies this
      ensures View() == CheckVerified(old(View()), digest, saved)
    {
      var p := checkOperation.pending.value;
      var ok := VerifyPending(p, checkOperation.offer, format, digest);
      if !ok {
        if !saved {
          info, ready := None, false;
          checkOperation := CheckLeaves(true);
          return;
        }
        storedPending := None;
      }
      ready := ok;
      checkOperation := CheckLinks;
    }

    method DownloadJudged(digest: Option<string>, saved: bool)
      requires downloadOperation.DownloadVerify?
      modifies this
      ensures View() == DownloadVerified(old(View()), digest, saved)
    {
      var p := downloadOperation.pending;
      var ok := false;
      if info.Some? {
        ok := VerifyPending(p, info.value, format, digest);
      }
      ready := ok && saved;
      if ready {
        storedPending := Some(p);
      }
      downloadOperation := DownloadLeaves;
    }

    method FailInstall(cleared: bool)
      modifies this
      ensures View() == InstallFails(old(View()), cleared)
    {
      ghost var was := View();
      if prepared {
        prepared := false;
        installBlocked, ready := true, false;
        resumes := resumes + 1;
      }
      assert View() == if was.prepared then BlockInstall(was.(prepared := false)).(resumes := was.resumes + 1) else was;
      if cleared {
        storedAttempt := None;
      }
      installOperation := InstallLeaves;
    }

    method BeginInstall(cleared: bool)
      modifies this
      ensures View() == InstallBegins(old(View()), cleared)
    {
      if closing || !ready || info.None? {
        installOperation := InstallLeaves;
        return;
      }
      if storedPending.None? {
        ready := false;
        FailInstall(cleared);
        return;
      }
      installOperation := InstallVerify(storedPending.value);
    }

    /** The cached file does not verify (any more). */
    method RejectCached(saved: bool, cleared: bool)
      modifies this
      ensures View() == InstallFails(old(View()).(ready := false, pending := if saved then None else old(storedPending)), cleared)
    {
      hide InstallFails;
      ghost var was := View();
      ready := false;
      if saved {
        storedPending := None;
      }
      assert View() == was.(ready := false, pending := if saved then None else was.pending);
      FailInstall(cleared);
    }

    method InstallJudged(digest: Option<string>, saved: bool, cleared: bool)
      requires installOperation.InstallVerify?
      modifies this
      ensures View() == InstallVerified(old(View()), digest, saved, cleared)
    {
      hide Verify, InstallFails;
      var p := installOperation.pending;
      var ok := false;
      if info.Some? {
        ok := VerifyPending(p, info.value, format, digest);
      }
      if ok {
        installOperation := if format.AppImage? then InstallAccess(info.value, p) else Rehydrate(info.value, p);
      } else {
        RejectCached(saved, cleared);
      }
    }

    method CacheRehydrated(ok: bool, saved: bool, cleared: bool)
      requires installOperation.Rehydrate?
      modifies this
      ensures View() == Rehydrated(old(View()), ok, saved, cleared)
    {
      if !ok || closing || info.None? || !saved {
        FailInstall(cleared);
        return;
      }
      storedAttempt := Some(info.value.version);
      installOperation := PrepareQuit(installOperation.offer, installOperation.pending);
    }

    /** From the resolved `prepareQuit` to the end of the try block. */
    method HandOver(ok: bool, h: Handoff, cleared: bool)
      modifies this
      ensures View() == QuitPrepared(old(View()), ok, h, cleared)
    {
      if !ok || closing {
        FailInstall(cleared);
        return;
      }
      prepared := true;
      handoffs := handoffs + 1;
      if h.emits {
        DriverError();
      }
      if h.emits || h.throws {
        FailInstall(cleared);
      } else {
        installOperation := InstallLeaves;
      }
    }
  }
}
