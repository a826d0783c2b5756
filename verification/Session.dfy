/** The signed-in session of internal/pixiv/service.go, the retry of internal/pixiv/call.go and the pinned
    first attempt of internal/pixiv/bookmarks.go. Sections under `mu` are single steps; `refreshMu` is a
    lock held across the call to Pixiv; a proxy reload may come between any two steps. */
module Session {
  import opened Options

  type Account = int
  type ClientId = nat
  type ThreadId = nat

  datatype Token = Token(refresh: string, access: string, user: Account)
  datatype Creds = Creds(access: string, refresh: string)

  const EMPTY: Token := Token("", "", 0)
  const NO_AUTH: Creds := Creds("", "")

  function CredsOf(t: Token): Creds { Creds(t.access, t.refresh) }

  /** What a thread does with the session. */
  datatype Op =
    | Login(refresh: string)     // Login, LoginWithAuthCode
    | Boot(refresh: string)      // the refresh in Start, with a token read before the lock
    | Loop                       // refreshCurrent
    | Logout
    | Retry(before: Token)       // refreshForRetry
    | Pin                        // the head of runBookmark

  datatype Result = Finished | NoReplay | Replay(token: Token) | Pinned(token: Token, creds: Creds)

  datatype Phase =
    | Calling(before: Token)                          // first attempt of Call running
    | Waits(op: Op)                                   // for refreshMu
    | Authing(op: Op, client: ClientId, refresh: string)
    | Publishing(op: Op, client: ClientId, token: Token)
    | Saving(op: Op, token: Token)
    | Clearing(op: Op, client: ClientId)
    | Done(op: Op, result: Result)

  /** Who the tokens Pixiv has issued belong to. */
  datatype Ledger = Ledger(access: map<string, Account>, refresh: map<string, Account>)

  /** `refreshed`: the access tokens that retries have replaced. */
  datatype State = State(
    token: Token, expired: bool, clients: map<ClientId, Creds>, current: ClientId, holder: Option<ThreadId>,
    threads: map<ThreadId, Phase>, ledger: Ledger, refreshed: seq<string>)

  datatype Decision = Refuse | Reuse(token: Token) | Refresh(refresh: string)

  /** The three-way choice of `refreshForRetry`. */
  function Decide(cur: Token, before: Token): Decision {
    if cur.user != before.user then Refuse
    else if cur.access != before.access then Reuse(cur)
    else if cur.refresh == "" then Refuse
    else Refresh(cur.refresh)
  }

  datatype Reply = Granted(token: Token) | Rejected | Transient

  datatype Step =
    | Call(th: ThreadId)
    | Begin(th: ThreadId, op: Op)
    | NeedsRetry(th: ThreadId)
    | Lock(th: ThreadId)
    | AuthReturns(th: ThreadId, reply: Reply)
    | Publish(th: ThreadId)
    | Save(th: ThreadId, ok: bool)
    | ClearClient(th: ThreadId)
    | Reload(c: ClientId)

  predicate In(s: State, th: ThreadId) { th in s.threads }

  /** Pixiv answers a refresh with a fresh access token of the account the refresh token belongs to. */
  predicate Honest(l: Ledger, refresh: string, t: Token) {
    && refresh in l.refresh && t.user == l.refresh[refresh]
    && t.access != "" && t.access !in l.access
    && t.refresh != "" && (t.refresh in l.refresh ==> l.refresh[t.refresh] == t.user)
  }

  predicate Enabled(s: State, step: Step) {
    match step
    case Call(th) => th !in s.threads
    case Begin(th, op) => th !in s.threads && !op.Retry?
    case NeedsRetry(th) => In(s, th) && (s.threads[th].Calling? || (s.threads[th].Done? && s.threads[th].result.Pinned?))
    case Lock(th) => In(s, th) && s.threads[th].Waits? && s.holder.None?
    case AuthReturns(th, reply) => In(s, th) && s.threads[th].Authing? && (reply.Granted? ==> Honest(s.ledger, s.threads[th].refresh, reply.token))
    case Publish(th) => In(s, th) && s.threads[th].Publishing?
    case Save(th, _) => In(s, th) && s.threads[th].Saving?
    case ClearClient(th) => In(s, th) && s.threads[th].Clearing?
    case Reload(c) => c !in s.clients
  }

  function At(s: State, th: ThreadId, p: Phase): State { s.(threads := s.threads[th := p]) }

  function Unlock(s: State, th: ThreadId, op: Op, r: Result): State { At(s, th, Done(op, r)).(holder := None) }

  /** `clearSessionLocked` up to the point where it lets go of `mu`. */
  function DropToken(s: State, th: ThreadId, op: Op): State {
    At(s, th, Clearing(op, s.current)).(token := EMPTY, expired := !op.Logout?, holder := Some(th))
  }

  function StartAuth(s: State, th: ThreadId, op: Op, refresh: string): State {
    At(s, th, Authing(op, s.current, refresh)).(holder := Some(th))
  }

  function Locked(s: State, th: ThreadId, op: Op): State {
    match op
    case Login(rt) => StartAuth(s, th, op, rt)
    case Boot(rt) => StartAuth(s, th, op, rt)
    case Loop => if s.token.refresh == "" then Unlock(s, th, op, Finished) else StartAuth(s, th, op, s.token.refresh)
    case Logout => DropToken(s, th, op)
    case Retry(before) =>
      (match Decide(s.token, before)
       case Refuse => Unlock(s, th, op, NoReplay)
       case Reuse(t) => Unlock(s, th, op, Replay(t))
       case Refresh(rt) => StartAuth(s, th, op, rt))
    case Pin => Unlock(s, th, op, Pinned(s.token, if s.current in s.clients then s.clients[s.current] else NO_AUTH))
  }

  function Failed(op: Op): Result { if op.Retry? then NoReplay else Finished }

  function Issue(l: Ledger, t: Token): Ledger {
    Ledger(l.access[t.access := t.user], l.refresh[t.refresh := t.user])
  }

  function Apply(s: State, step: Step): State
    requires Enabled(s, step)
  {
    match step
    case Call(th) => At(s, th, Calling(s.token))
    case Begin(th, op) => At(s, th, Waits(op))
    case NeedsRetry(th) =>
      var p := s.threads[th];
      At(s, th, Waits(Retry(if p.Calling? then p.before else p.result.token)))
    case Lock(th) => Locked(s, th, s.threads[th].op)
    case AuthReturns(th, reply) =>
      var p := s.threads[th];
      (match reply
       case Granted(t) => At(s, th, Publishing(p.op, p.client, t)).(clients := s.clients[p.client := CredsOf(t)], ledger := Issue(s.ledger, t))
       case Rejected => if p.op.Login? then Unlock(s, th, p.op, Finished) else DropToken(s, th, p.op)
       case Transient => Unlock(s, th, p.op, Failed(p.op)))
    case Publish(th) =>
      var p := s.threads[th];
      At(s, th, Saving(p.op, p.token))
      .(token := p.token, expired := false, clients := s.clients[s.current := CredsOf(p.token)],
        refreshed := if p.op.Retry? then s.refreshed + [s.token.access] else s.refreshed)
    case Save(th, ok) =>
      var p := s.threads[th];
      Unlock(s, th, p.op, if p.op.Retry? then if ok then Replay(p.token) else NoReplay else Finished)
    case ClearClient(th) =>
      var p := s.threads[th];
      Unlock(s.(clients := s.clients[p.client := NO_AUTH]), th, p.op, Failed(p.op))
    case Reload(c) => s.(clients := s.clients[c := CredsOf(s.token)], current := c)
  }

  // ----- invariant -----

  predicate IsInside(p: Phase) { p.Authing? || p.Publishing? || p.Saving? || p.Clearing? }

  ghost predicate LockOk(s: State) {
    && s.current in s.clients
    && (s.holder.Some? ==> In(s, s.holder.value) && IsInside(s.threads[s.holder.value]))
    && (forall th :: In(s, th) && IsInside(s.threads[th]) ==> s.holder == Some(th))
  }

  /** The current client carries the stored token, but for the stretch in which the holder of
      `refreshMu` replaces both. */
  ghost predicate ClientOk(s: State)
    requires LockOk(s)
  {
    var creds := s.clients[s.current];
    if s.holder.None? then creds == CredsOf(s.token)
    else match s.threads[s.holder.value]
      case Publishing(_, c, t) => s.current == c || creds == CredsOf(s.token)
      case Clearing(_, c) => s.token == EMPTY && (s.current == c || creds == NO_AUTH)
      case _ => creds == CredsOf(s.token)
  }

  /** The token's parts belong to the account it names. */
  predicate Owned(l: Ledger, t: Token) {
    && (t.refresh != "" ==> t.refresh in l.refresh && l.refresh[t.refresh] == t.user)
    && (t.access != "" ==> t.access in l.access && l.access[t.access] == t.user)
  }

  predicate PhaseOk(s: State, p: Phase) {
    match p
    case Authing(op, _, rt) =>
      (op.Retry? ==> s.token.user == op.before.user && s.token.access == op.before.access && rt == s.token.refresh != "")
    case Publishing(op, _, t) =>
      && Owned(s.ledger, t) && t.refresh != "" && t.access != "" && t.access !in s.refreshed && t.access != s.token.access
      && (op.Retry? ==> t.user == op.before.user && s.token.access == op.before.access && s.token.access !in s.refreshed)
    case Saving(op, t) => t == s.token && Owned(s.ledger, t) && (op.Retry? ==> t.user == op.before.user && t.access != op.before.access)
    case Done(op, r) =>
      && (r.Replay? ==> op.Retry? && Owned(s.ledger, r.token) && r.token.user == op.before.user && r.token.access != op.before.access)
      && (r.Pinned? ==> r.creds == CredsOf(r.token) && Owned(s.ledger, r.token))
    case _ => true
  }

  predicate TokenOk(s: State) {
    && Owned(s.ledger, s.token)
    && (s.token.access in s.refreshed ==> s.token.refresh == "")
    && (s.expired ==> s.token == EMPTY)
    && (forall i, k :: 0 <= i < k < |s.refreshed| ==> s.refreshed[i] != s.refreshed[k])
    && (forall a :: a in s.refreshed ==> a == "" || a in s.ledger.access)
  }

  ghost predicate Inv(s: State) {
    && LockOk(s) && ClientOk(s) && TokenOk(s)
    && forall th :: In(s, th) ==> PhaseOk(s, s.threads[th])
  }

  /** A loaded session: one client that carries the persisted token. */
  predicate Init(s: State) {
    && s.clients == map[s.current := CredsOf(s.token)] && s.holder.None? && s.threads == map[] && s.refreshed == []
    && Owned(s.ledger, s.token) && !s.expired
  }

  lemma InitInv(s: State)
    requires Init(s)
    ensures Inv(s)
  {
  }

  /** A step that leaves the token and the log alone leaves every other thread's facts alone. */
  lemma OthersStay(s: State, s': State, th: ThreadId)
    requires Inv(s) && LockOk(s') && s'.token == s.token && s'.refreshed == s.refreshed && s'.ledger == s.ledger
    requires forall u :: In(s', u) && u != th ==> In(s, u) && s'.threads[u] == s.threads[u]
    requires In(s', th) ==> PhaseOk(s', s'.threads[th])
    ensures forall u :: In(s', u) ==> PhaseOk(s', s'.threads[u])
  {
  }

  lemma OutsideKeeps(s: State, step: Step)
    requires Inv(s) && Enabled(s, step) && (step.Call? || step.Begin? || step.NeedsRetry? || step.Reload?)
    ensures Inv(Apply(s, step))
  {
    hide Owned;
  }

  lemma StartAuthKeeps(s: State, th: ThreadId, op: Op, rt: string)
    requires Inv(s) && In(s, th) && s.holder.None?
    requires op.Retry? ==> s.token.user == op.before.user && s.token.access == op.before.access && rt == s.token.refresh != ""
    ensures Inv(StartAuth(s, th, op, rt))
  {
    hide Owned;
    OthersStay(s, StartAuth(s, th, op, rt), th);
  }

  lemma UnlockKeeps(s: State, th: ThreadId, op: Op, r: Result)
    requires Inv(s) && In(s, th) && s.holder.None? && PhaseOk(s, Done(op, r))
    ensures Inv(Unlock(s, th, op, r))
  {
    hide Owned;
    OthersStay(s, Unlock(s, th, op, r), th);
  }

  lemma DropKeeps(s: State, th: ThreadId, op: Op)
    requires Inv(s) && In(s, th) && (s.holder.None? || (s.holder == Some(th) && s.threads[th].Authing?))
    ensures Inv(DropToken(s, th, op))
  {
  }

  lemma LockKeeps(s: State, th: ThreadId)
    requires Inv(s) && Enabled(s, Lock(th))
    ensures Inv(Apply(s, Lock(th)))
  {
    var op := s.threads[th].op;
    assert ClientOk(s) && Owned(s.ledger, s.token);
    hide Inv, Unlock, StartAuth, DropToken, Owned;
    match op {
      case Login(rt) => StartAuthKeeps(s, th, op, rt);
      case Boot(rt) => StartAuthKeeps(s, th, op, rt);
      case Logout => DropKeeps(s, th, op);
      case Loop => if s.token.refresh == "" { UnlockKeeps(s, th, op, Finished); } else { StartAuthKeeps(s, th, op, s.token.refresh); }
      case Pin => UnlockKeeps(s, th, op, Pinned(s.token, s.clients[s.current]));
      case Retry(before) =>
        match Decide(s.token, before) {
          case Refuse => UnlockKeeps(s, th, op, NoReplay);
          case Reuse(t) => UnlockKeeps(s, th, op, Replay(t));
          case Refresh(rt) => StartAuthKeeps(s, th, op, rt);
        }
    }
  }

  lemma GrantKeeps(s: State, th: ThreadId, t: Token)
    requires Inv(s) && Enabled(s, AuthReturns(th, Granted(t)))
    ensures Inv(Apply(s, AuthReturns(th, Granted(t))))
  {
  }

  lemma AuthKeeps(s: State, th: ThreadId, reply: Reply)
    requires Inv(s) && Enabled(s, AuthReturns(th, reply))
    ensures Inv(Apply(s, AuthReturns(th, reply)))
  {
    var op := s.threads[th].op;
    match reply {
      case Granted(t) =>
        hide Inv, Apply;
        GrantKeeps(s, th, t);
      case Rejected =>
        if op.Login? {
          hide Owned;
          OthersStay(s, Unlock(s, th, op, Finished), th);
        } else {
          hide Inv, DropToken;
          DropHeld(s, th);
        }
      case Transient =>
        hide Owned;
        OthersStay(s, Unlock(s, th, op, Failed(op)), th);
    }
  }

  lemma DropHeld(s: State, th: ThreadId)
    requires Inv(s) && In(s, th) && s.threads[th].Authing?
    ensures Inv(DropToken(s, th, s.threads[th].op))
  {
    assert s.holder == Some(th);
    hide Inv, DropToken;
    DropKeeps(s, th, s.threads[th].op);
  }

  lemma TailKeeps(s: State, step: Step)
    requires Inv(s) && Enabled(s, step) && (step.Publish? || step.Save? || step.ClearClient?)
    ensures Inv(Apply(s, step))
  {
  }

  lemma StepKeeps(s: State, step: Step)
    requires Inv(s) && Enabled(s, step)
    ensures Inv(Apply(s, step))
  {
    hide Inv, Apply, Enabled;
    match step {
      case Lock(th) => LockKeeps(s, th);
      case AuthReturns(th, reply) => AuthKeeps(s, th, reply);
      case Publish(_) => TailKeeps(s, step);
      case Save(_, _) => TailKeeps(s, step);
      case ClearClient(_) => TailKeeps(s, step);
      case _ => OutsideKeeps(s, step);
    }
  }

  // ----- whole runs -----

  ghost predicate IsStep(s: State, step: Step, s': State) { Enabled(s, step) && s' == Apply(s, step) }

  ghost predicate IsRun(run: seq<State>, steps: seq<Step>) {
    |run| == |steps| + 1 && Init(run[0]) && forall i :: 0 <= i < |steps| ==> IsStep(run[i], steps[i], run[i + 1])
  }

  lemma {:induction false} RunKeeps(run: seq<State>, steps: seq<Step>, i: nat)
    requires IsRun(run, steps) && i < |run|
    ensures Inv(run[i])
  {
    hide Inv, Apply, Enabled;
    if i == 0 {
      InitInv(run[0]);
    } else {
      RunKeeps(run, steps, i - 1);
      assert IsStep(run[i - 1], steps[i - 1], run[i]);
      StepKeeps(run[i - 1], steps[i - 1]);
    }
  }

  /** Whenever refreshMu is free, the current client carries the stored token, whatever reloads came between. */
  lemma ClientMatchesToken(run: seq<State>, steps: seq<Step>, i: nat)
    requires IsRun(run, steps) && i < |run| && run[i].holder.None?
    ensures run[i].current in run[i].clients && run[i].clients[run[i].current] == CredsOf(run[i].token)
  {
    hide Owned, IsRun;
    RunKeeps(run, steps, i);
  }

  /** A retried call replays only with another access token of the very account its first attempt started from. */
  lemma ReplaySameAccount(run: seq<State>, steps: seq<Step>, i: nat, th: ThreadId, before: Token, t: Token)
    requires IsRun(run, steps) && i < |run| && In(run[i], th) && run[i].threads[th] == Done(Retry(before), Replay(t))
    ensures t.user == before.user && t.access != before.access
    ensures t.access != "" ==> t.access in run[i].ledger.access && run[i].ledger.access[t.access] == before.user
  {
    hide IsRun;
    RunKeeps(run, steps, i);
    assert PhaseOk(run[i], run[i].threads[th]);
  }

  /** The first attempt on a bookmark runs with the credentials of the snapshot it is checked against. */
  lemma FirstAttemptPinned(run: seq<State>, steps: seq<Step>, i: nat, th: ThreadId, before: Token, creds: Creds)
    requires IsRun(run, steps) && i < |run| && In(run[i], th) && run[i].threads[th] == Done(Pin, Pinned(before, creds))
    ensures creds == CredsOf(before)
    ensures before.access != "" ==> before.access in run[i].ledger.access && run[i].ledger.access[before.access] == before.user
  {
    hide IsRun;
    RunKeeps(run, steps, i);
    assert PhaseOk(run[i], run[i].threads[th]);
  }

  /** However many calls fail on one access token, at most one retry refreshes it. */
  lemma OneRefreshPerToken(run: seq<State>, steps: seq<Step>, i: nat, k: nat, m: nat)
    requires IsRun(run, steps) && i < |run| && k < m < |run[i].refreshed|
    ensures run[i].refreshed[k] != run[i].refreshed[m]
  {
    hide IsRun;
    RunKeeps(run, steps, i);
  }

  /** The "session expired" hint is shown only while nobody is signed in. */
  lemma ExpiredMeansSignedOut(run: seq<State>, steps: seq<Step>, i: nat)
    requires IsRun(run, steps) && i < |run| && run[i].expired
    ensures run[i].token == EMPTY
  {
    hide IsRun;
    RunKeeps(run, steps, i);
  }

  // ----- the class -----

  /** The part of pixivgo's client that matters here. */
  class ApiClient {
    var auth: Creds

    constructor ()
      ensures auth == NO_AUTH
    {
      auth := NO_AUTH;
    }

    method SetAuth(access: string, refresh: string)
      modifies this
      ensures auth == Creds(access, refresh)
    {
      auth := Creds(access, refresh);
    }

    method Clone() returns (c: ApiClient)
      ensures fresh(c) && c.auth == auth
    {
      c := new ApiClient();
      c.SetAuth(auth.access, auth.refresh);
    }
  }

  class Service {
    var token: Token
    var sessionExpired: bool
    var client: ApiClient
    var proxy: string

    constructor (stored: Token, proxy: string)
      ensures token == stored && !sessionExpired && fresh(client) && client.auth == CredsOf(stored) && this.proxy == proxy
    {
      token, sessionExpired, this.proxy := stored, false, proxy;
      client := new ApiClient();
      new;
      if stored.access != "" || stored.refresh != "" {
        client.SetAuth(stored.access, stored.refresh);
      }
    }

    /** `Reload`: a new client takes over the stored token; a failed build changes nothing. */
    method Reload(wanted: string, built: bool) returns (ok: bool)
      modifies this`client, this`proxy
      ensures token == old(token) && sessionExpired == old(sessionExpired) && ok == (wanted == old(proxy) || built)
      ensures if wanted == old(proxy) || !built then client == old(client) && proxy == old(proxy)
              else fresh(client) && client.auth == CredsOf(token) && proxy == wanted
    {
      if wanted == proxy {
        return true;
      }
      if !built {
        return false;
      }
      var c := new ApiClient();
      if token.access != "" || token.refresh != "" {
        c.SetAuth(token.access, token.refresh);
      }
      client, proxy := c, wanted;
      ok := true;
    }

    /** The publishing section of `refreshLocked`: whatever client is current now gets the token. */
    method PublishToken(t: Token)
      modifies this`token, this`sessionExpired, client
      ensures token == t && !sessionExpired && client == old(client) && client.auth == CredsOf(t)
    {
      token := t;
      sessionExpired := false;
      client.SetAuth(t.access, t.refresh);
    }

    /** The locked section of `clearSessionLocked`; the captured client is cleared after the lock is released. */
    method TakeToken(expired: bool) returns (captured: ApiClient)
      modifies this`token, this`sessionExpired
      ensures token == EMPTY && sessionExpired == expired && captured == client
    {
      token := EMPTY;
      sessionExpired := expired;
      captured := client;
    }

    /** The choice of `refreshForRetry` under refreshMu. A replay gets credentials of the account before the first
        attempt that are not the ones that failed; only the failed ones are refreshed; refused are exactly another
        account and a failed token that nothing can refresh. */
    method DecideRetry(before: Token) returns (d: Decision)
      ensures d.Reuse? ==> d.token == token && d.token.user == before.user && d.token.access != before.access
      ensures d.Refresh? ==> token.user == before.user && token.access == before.access && d.refresh == token.refresh != ""
      ensures d.Refuse? <==> token.user != before.user || (token.access == before.access && token.refresh == "")
      ensures d == Decide(token, before)
    {
      if token.user != before.user {
        return Refuse;
      }
      if token.access != before.access {
        return Reuse(token);
      }
      if token.refresh == "" {
        return Refuse;
      }
      d := Refresh(token.refresh);
    }

    /** The replay's private client: a clone pinned to the given token; the shared client is untouched. */
    method PinClient(t: Token) returns (c: ApiClient)
      ensures fresh(c) && c.auth == CredsOf(t) && client.auth == old(client.auth)
    {
      c := client.Clone();
      c.SetAuth(t.access, t.refresh);
    }
  }
}
