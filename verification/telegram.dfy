/** The Telegram bot as a concurrent client of the pending-approval store.  One label is the code
    between two awaits of the bot, or one action of the core, of its other users or of the clock. */
module Telegram {
  import opened Types
  import Pending

  datatype Config = Config(ttlMs: nat, approvalTimeoutMs: nat)

  /** Where the command handler of one intent is: at its polls, at the approve-request it awaits
      without a card, at the card it is sending, gone after storing the card, or gone. */
  datatype Stage = Polling | Direct | Showing(request: string) | Buttons(request: string) | Ended

  datatype Flow = Flow(user: int, stage: Stage)

  datatype Active = Active(intentId: string, user: int, expiresAt: nat)

  /** What a pressed button is waiting for. */
  datatype Wait = Deciding | Replying(ok: bool) | Settling | Signing | Sending

  datatype Callback = Callback(request: string, active: Active, approved: bool, wait: Wait)

  // ---- history ----

  datatype Request = Request(summary: Pending.Summary, at: nat)
  datatype Verdict = Verdict(approved: bool, at: nat, callback: Option<nat>)
  datatype Send = Send(intentId: string, callback: Option<nat>, request: Option<string>)

  datatype State = State(
    now: nat,
    pending: Pending.Store,
    flows: map<string, Flow>,
    active: map<string, Active>,
    callbacks: map<nat, Callback>,
    pressed: map<nat, Callback>,
    requests: map<string, Request>,
    verdicts: map<string, Verdict>,
    sends: seq<Send>)

  const INIT := State(0, map[], map[], map[], map[], map[], map[], map[], [])

  datatype Label =
    | Advance(ms: nat)
    | CoreAdds(request: string, summary: Pending.Summary)
    | CoreCleanup
    | CoreCloses
    | SomeoneDecides(request: string, approved: bool)
    | Initiate(intentId: string, user: int)
    | PollFinds(intentId: string, request: string)
    | PollGivesUp(intentId: string)
    | DirectSettles(intentId: string, token: bool)
    | CardShown(intentId: string)
    | FlowFails(intentId: string)
    | Expire(request: string)
    | Press(pid: nat, request: string, user: int, approved: bool)
    | DecideArrives(pid: nat)
    | ReplyArrives(pid: nat)
    | PromiseSettles(pid: nat, token: bool)
    | SendNow(pid: nat)
    | CallbackEnds(pid: nat)
    | BotRestarts

  function Move(s: State, intentId: string, stage: Stage): State
    requires intentId in s.flows
  {
    s.(flows := s.flows[intentId := s.flows[intentId].(stage := stage)])
  }

  function Await(s: State, pid: nat, w: Wait): State
    requires pid in s.callbacks
  {
    s.(callbacks := s.callbacks[pid := s.callbacks[pid].(wait := w)])
  }

  /** The finally clause of the callback handler. */
  function End(s: State, pid: nat): State
    requires pid in s.callbacks
  {
    s.(callbacks := s.callbacks - {pid}, active := s.active - {s.callbacks[pid].request})
  }

  /** The core carries out one decide call. */
  function CoreDecides(c: Config, s: State, request: string, approved: bool, caller: Option<nat>): State {
    s.(pending := Pending.Decide(s.pending, request),
       verdicts := if Pending.DecideSucceeds(s.pending, request, s.now, c.ttlMs)
                   then s.verdicts[request := Verdict(approved, s.now, caller)] else s.verdicts)
  }

  predicate At(s: State, intentId: string, stage: Stage) {
    intentId in s.flows && s.flows[intentId].stage == stage
  }

  predicate Awaits(s: State, pid: nat, w: Wait) {
    pid in s.callbacks && s.callbacks[pid].wait == w
  }

  function OnPress(s: State, pid: nat, request: string, user: int, approved: bool): State {
    if request !in s.active || s.active[request].user != user then s
    else
      var cb := Callback(request, s.active[request], approved, Deciding);
      s.(callbacks := s.callbacks[pid := cb], pressed := s.pressed[pid := cb])
  }

  function Act(c: Config, s: State, l: Label): Option<State> {
    match l
    case Advance(ms) => Some(s.(now := s.now + ms))
    case CoreAdds(r, summary) =>
      if r in s.requests then None
      else Some(s.(pending := Pending.Add(s.pending, r, summary, s.now),
                        requests := s.requests[r := Request(summary, s.now)]))
    case CoreCleanup => Some(s.(pending := Pending.Cleanup(s.pending, s.now, c.ttlMs)))
    case CoreCloses => Some(s.(pending := map[]))
    case SomeoneDecides(r, approved) => Some(CoreDecides(c, s, r, approved, None))
    case Initiate(i, user) =>
      if i in s.flows then None else Some(s.(flows := s.flows[i := Flow(user, Polling)]))
    case PollFinds(i, r) =>
      if !At(s, i, Polling) || r !in s.requests || s.requests[r].summary.intentId != i then None
      else Some(Move(s, i, Showing(r)))
    case PollGivesUp(i) => if !At(s, i, Polling) then None else Some(Move(s, i, Direct))
    case DirectSettles(i, token) =>
      if !At(s, i, Direct) then None
      else Some(Move(s, i, Ended).(sends := if token then s.sends + [Send(i, None, None)] else s.sends))
    case CardShown(i) =>
      if i !in s.flows || !s.flows[i].stage.Showing? then None
      else
        var r := s.flows[i].stage.request;
        Some(Move(s, i, Buttons(r)).(active := s.active[r := Active(i, s.flows[i].user, s.now + c.approvalTimeoutMs)]))
    case FlowFails(i) =>
      if i !in s.flows || s.flows[i].stage.Buttons? then None else Some(Move(s, i, Ended))
    case Expire(r) =>
      if r !in s.active || s.now < s.active[r].expiresAt then None else Some(s.(active := s.active - {r}))
    case Press(pid, r, user, approved) =>
      if pid in s.pressed then None else Some(OnPress(s, pid, r, user, approved))
    case DecideArrives(pid) =>
      if !Awaits(s, pid, Deciding) then None
      else
        var cb := s.callbacks[pid];
        Some(CoreDecides(c, Await(s, pid, Replying(Pending.DecideSucceeds(s.pending, cb.request, s.now, c.ttlMs))),
                         cb.request, cb.approved, Some(pid)))
    case ReplyArrives(pid) =>
      if Awaits(s, pid, Replying(true)) then Some(Await(s, pid, Settling))
      else if Awaits(s, pid, Replying(false)) then Some(End(s, pid))
      else None
    case PromiseSettles(pid, token) =>
      if !Awaits(s, pid, Settling) then None
      else if s.callbacks[pid].approved && token then Some(Await(s, pid, Signing)) else Some(End(s, pid))
    case SendNow(pid) =>
      if !Awaits(s, pid, Signing) then None
      else
        var cb := s.callbacks[pid];
        Some(Await(s, pid, Sending).(sends := s.sends + [Send(cb.active.intentId, Some(pid), Some(cb.request))]))
    case CallbackEnds(pid) => if pid !in s.callbacks then None else Some(End(s, pid))
    case BotRestarts =>
      Some(s.(active := map[], callbacks := map[],
              flows := map i | i in s.flows ::
                if s.flows[i].stage.Buttons? then s.flows[i] else s.flows[i].(stage := Ended)))
  }

  function Exec(c: Config, run: seq<Label>): Option<State> {
    if run == [] then Some(INIT)
    else match Exec(c, run[..|run| - 1])
      case Some(s) => Act(c, s, run[|run| - 1])
      case None => None
  }

  // ---- the invariant ----

  ghost predicate PendingOk(pending: Pending.Store, requests: map<string, Request>, verdicts: map<string, Verdict>) {
    forall r :: r in pending ==> r in requests && r !in verdicts && pending[r].createdAt == requests[r].at
  }

  ghost predicate VerdictsOk(c: Config, verdicts: map<string, Verdict>, requests: map<string, Request>) {
    forall r :: r in verdicts ==> r in requests && verdicts[r].at - requests[r].at <= c.ttlMs
  }

  ghost predicate FlowsOk(flows: map<string, Flow>, requests: map<string, Request>) {
    forall i :: i in flows && (flows[i].stage.Showing? || flows[i].stage.Buttons?) ==>
      flows[i].stage.request in requests && requests[flows[i].stage.request].summary.intentId == i
  }

  /** The card of request r belongs to the flow of the intent it names. */
  predicate Owns(flows: map<string, Flow>, r: string, a: Active) {
    a.intentId in flows && flows[a.intentId] == Flow(a.user, Buttons(r))
  }

  ghost predicate ActiveOk(active: map<string, Active>, flows: map<string, Flow>) {
    forall r :: r in active ==> Owns(flows, r, active[r])
  }

  /** The core has said yes to this callback's decide. */
  predicate Granted(cb: Callback) {
    cb.wait == Replying(true) || cb.wait.Settling? || cb.wait.Signing? || cb.wait.Sending?
  }

  predicate SamePress(a: Callback, b: Callback) {
    a.request == b.request && a.active == b.active && a.approved == b.approved
  }

  ghost predicate CallbackOk(pid: nat, cb: Callback, s: State) {
    && Owns(s.flows, cb.request, cb.active)
    && pid in s.pressed && SamePress(cb, s.pressed[pid])
    && (Granted(cb) ==> cb.request in s.verdicts && s.verdicts[cb.request].callback == Some(pid) &&
                        s.verdicts[cb.request].approved == cb.approved)
    && (cb.wait.Signing? ==> cb.approved)
    && (!cb.wait.Sending? ==> forall k :: 0 <= k < |s.sends| ==> s.sends[k].callback != Some(pid))
  }

  ghost predicate CallbacksOk(s: State) {
    forall pid :: pid in s.callbacks ==> CallbackOk(pid, s.callbacks[pid], s)
  }

  /** A send that a button led to: its press, by the user who started the flow, was an approval
      that the core accepted. */
  ghost predicate PressedFor(s: State, send: Send) {
    && send.request.Some? && send.callback.Some? && send.callback.value in s.pressed
    && send.request.value in s.verdicts && s.verdicts[send.request.value].approved
    && s.verdicts[send.request.value].callback == send.callback
    && send.intentId in s.flows
    && var cb := s.pressed[send.callback.value];
       cb.approved && cb.request == send.request.value && cb.active.intentId == send.intentId &&
       cb.active.user == s.flows[send.intentId].user
  }

  ghost predicate SendOk(s: State, send: Send) {
    && send.intentId in s.flows
    && (send.callback.Some? <==> send.request.Some?)
    && (send.callback.Some? ==> PressedFor(s, send))
    && match s.flows[send.intentId].stage
       case Ended => send.request.None?
       case Buttons(r) => send.request == Some(r)
       case _ => false
  }

  ghost predicate SendsOk(s: State) {
    && (forall k :: 0 <= k < |s.sends| ==> SendOk(s, s.sends[k]))
    && (forall j, k :: 0 <= j < k < |s.sends| ==> s.sends[j].intentId != s.sends[k].intentId)
  }

  ghost predicate Inv(c: Config, s: State) {
    && PendingOk(s.pending, s.requests, s.verdicts)
    && VerdictsOk(c, s.verdicts, s.requests)
    && FlowsOk(s.flows, s.requests)
    && ActiveOk(s.active, s.flows)
    && (forall pid :: pid in s.callbacks ==> pid in s.pressed)
    && CallbacksOk(s)
    && SendsOk(s)
  }

  // ---- moves ----

  /** The core, the clock and disappearing cards. */
  lemma CoreKeeps(c: Config, s: State, l: Label)
    requires Inv(c, s) && Act(c, s, l).Some?
    requires l.Advance? || l.CoreAdds? || l.CoreCleanup? || l.CoreCloses? || l.Expire?
    ensures Inv(c, Act(c, s, l).value)
  {
    hide Owns, CallbackOk, SendOk;
    KeepCallbacksAndSends(s, Act(c, s, l).value);
  }

  /** What callbacks and sends rely on. */
  lemma KeepCallbacksAndSends(s: State, t: State)
    requires CallbacksOk(s) && SendsOk(s)
    requires t.flows == s.flows && t.callbacks == s.callbacks && t.pressed == s.pressed
    requires t.verdicts == s.verdicts && t.sends == s.sends
    ensures CallbacksOk(t) && SendsOk(t)
  {
    forall pid | pid in t.callbacks ensures CallbackOk(pid, t.callbacks[pid], t) {
      assert CallbackOk(pid, s.callbacks[pid], s);
    }
    forall k | 0 <= k < |t.sends| ensures SendOk(t, t.sends[k]) {
      assert SendOk(s, s.sends[k]);
    }
  }

  /** A verdict is given on a request that has none, so no callback and no send relies on it yet. */
  lemma CoreDecidesKeeps(c: Config, s: State, r: string, approved: bool, caller: Option<nat>)
    requires Inv(c, s)
    ensures Inv(c, CoreDecides(c, s, r, approved, caller))
  {
    hide Owns;
    var t := CoreDecides(c, s, r, approved, caller);
    forall pid | pid in t.callbacks ensures CallbackOk(pid, t.callbacks[pid], t) {
      assert CallbackOk(pid, s.callbacks[pid], s);
    }
    forall k | 0 <= k < |t.sends| ensures SendOk(t, t.sends[k]) {
      assert SendOk(s, s.sends[k]);
    }
  }

  /** A flow that has no card stored moves on. */
  lemma MoveKeeps(c: Config, s: State, i: string, stage: Stage)
    requires Inv(c, s) && i in s.flows && !s.flows[i].stage.Buttons?
    requires stage.Showing? || stage.Buttons? ==>
      stage.request in s.requests && s.requests[stage.request].summary.intentId == i
    requires stage == Ended || s.flows[i].stage != Ended
    ensures Inv(c, Move(s, i, stage))
  {
    var t := Move(s, i, stage);
    forall pid | pid in t.callbacks ensures CallbackOk(pid, t.callbacks[pid], t) {
      assert CallbackOk(pid, s.callbacks[pid], s);
    }
    forall k | 0 <= k < |t.sends| ensures SendOk(t, t.sends[k]) {
      assert SendOk(s, s.sends[k]);
    }
  }

  lemma NewFlowKeeps(c: Config, s: State, i: string, user: int)
    requires Inv(c, s) && i !in s.flows
    ensures Inv(c, s.(flows := s.flows[i := Flow(user, Polling)]))
  {
    var t := s.(flows := s.flows[i := Flow(user, Polling)]);
    forall pid | pid in t.callbacks ensures CallbackOk(pid, t.callbacks[pid], t) {
      assert CallbackOk(pid, s.callbacks[pid], s);
    }
    forall k | 0 <= k < |t.sends| ensures SendOk(t, t.sends[k]) {
      assert SendOk(s, s.sends[k]);
    }
  }

  /** A card is stored, or removed. */
  lemma ActiveKeeps(c: Config, s: State, active: map<string, Active>)
    requires Inv(c, s) && ActiveOk(active, s.flows)
    ensures Inv(c, s.(active := active))
  {
    hide Owns, CallbackOk, SendOk;
    KeepCallbacksAndSends(s, s.(active := active));
  }

  /** One more send, for an intent that had none. */
  lemma SendKeeps(c: Config, s: State, send: Send)
    requires Inv(c, s) && SendOk(s, send)
    requires forall k :: 0 <= k < |s.sends| ==> s.sends[k].intentId != send.intentId
    requires forall pid :: pid in s.callbacks && !s.callbacks[pid].wait.Sending? ==> send.callback != Some(pid)
    ensures Inv(c, s.(sends := s.sends + [send]))
  {
    hide Owns, PressedFor;
    var t := s.(sends := s.sends + [send]);
    forall pid | pid in t.callbacks ensures CallbackOk(pid, t.callbacks[pid], t) {
      assert CallbackOk(pid, s.callbacks[pid], s);
    }
    forall k | 0 <= k < |t.sends| ensures SendOk(t, t.sends[k]) {
      assert k < |s.sends| ==> SendOk(s, s.sends[k]);
      PressStays(s, t, t.sends[k]);
    }
  }

  lemma PressStays(s: State, t: State, send: Send)
    requires t.flows == s.flows && t.pressed == s.pressed && t.verdicts == s.verdicts
    ensures PressedFor(s, send) ==> PressedFor(t, send)
    ensures SendOk(s, send) ==> SendOk(t, send)
  {
  }

  lemma AwaitKeeps(c: Config, s: State, pid: nat, w: Wait)
    requires Inv(c, s) && pid in s.callbacks
    requires CallbackOk(pid, s.callbacks[pid].(wait := w), s)
    ensures Inv(c, Await(s, pid, w))
  {
    hide Owns, SendOk;
    var t := Await(s, pid, w);
    forall q | q in t.callbacks ensures CallbackOk(q, t.callbacks[q], t) {
      assert CallbackOk(q, s.callbacks[q], s);
    }
    forall k | 0 <= k < |t.sends| ensures SendOk(t, t.sends[k]) {
      PressStays(s, t, t.sends[k]);
    }
  }

  lemma EndKeeps(c: Config, s: State, pid: nat)
    requires Inv(c, s) && pid in s.callbacks
    ensures Inv(c, End(s, pid))
  {
    hide Owns, SendOk;
    var t := End(s, pid);
    forall q | q in t.callbacks ensures CallbackOk(q, t.callbacks[q], t) {
      assert CallbackOk(q, s.callbacks[q], s);
    }
    forall k | 0 <= k < |t.sends| ensures SendOk(t, t.sends[k]) {
      PressStays(s, t, t.sends[k]);
    }
  }

  lemma PressKeeps(c: Config, s: State, pid: nat, r: string, user: int, approved: bool)
    requires Inv(c, s) && pid !in s.pressed
    ensures Inv(c, OnPress(s, pid, r, user, approved))
  {
    hide Owns;
    var t := OnPress(s, pid, r, user, approved);
    forall k | 0 <= k < |t.sends| ensures SendOk(t, t.sends[k]) {
      assert SendOk(s, s.sends[k]);
    }
    forall q | q in t.callbacks ensures CallbackOk(q, t.callbacks[q], t) {
      assert q in s.callbacks ==> CallbackOk(q, s.callbacks[q], s);
    }
  }

  /** The core decides for a callback: on success the verdict names it. */
  lemma DecideArrivesKeeps(c: Config, s: State, pid: nat)
    requires Inv(c, s) && Awaits(s, pid, Deciding)
    ensures Inv(c, Act(c, s, DecideArrives(pid)).value)
  {
    hide Owns;
    var cb := s.callbacks[pid];
    var ok := Pending.DecideSucceeds(s.pending, cb.request, s.now, c.ttlMs);
    var t := CoreDecides(c, s, cb.request, cb.approved, Some(pid));
    CoreDecidesKeeps(c, s, cb.request, cb.approved, Some(pid));
    assert CallbackOk(pid, cb, t);
    AwaitKeeps(c, t, pid, Replying(ok));
  }

  /** The callback that sends is the only one its request was granted to. */
  lemma SendNowKeeps(c: Config, s: State, pid: nat)
    requires Inv(c, s) && Awaits(s, pid, Signing)
    ensures Inv(c, Act(c, s, SendNow(pid)).value)
  {
    var cb := s.callbacks[pid];
    assert CallbackOk(pid, cb, s);
    AwaitKeeps(c, s, pid, Sending);
    forall k | 0 <= k < |s.sends| ensures s.sends[k].intentId != cb.active.intentId {
      assert SendOk(s, s.sends[k]);
    }
    SendKeeps(c, Await(s, pid, Sending), Send(cb.active.intentId, Some(pid), Some(cb.request)));
  }

  lemma DirectKeeps(c: Config, s: State, i: string, token: bool)
    requires Inv(c, s) && At(s, i, Direct)
    ensures Inv(c, Act(c, s, DirectSettles(i, token)).value)
  {
    MoveKeeps(c, s, i, Ended);
    forall k | 0 <= k < |s.sends| ensures s.sends[k].intentId != i {
      assert SendOk(s, s.sends[k]);
    }
    if token { SendKeeps(c, Move(s, i, Ended), Send(i, None, None)); }
  }

  lemma CardKeeps(c: Config, s: State, i: string)
    requires Inv(c, s) && i in s.flows && s.flows[i].stage.Showing?
    ensures Inv(c, Act(c, s, CardShown(i)).value)
  {
    hide CallbackOk, SendOk, CallbacksOk, SendsOk;
    var r := s.flows[i].stage.request;
    var t := Move(s, i, Buttons(r));
    MoveKeeps(c, s, i, Buttons(r));
    ActiveKeeps(c, t, t.active[r := Active(i, s.flows[i].user, s.now + c.approvalTimeoutMs)]);
  }

  lemma BotRestartKeeps(c: Config, s: State)
    requires Inv(c, s)
    ensures Inv(c, Act(c, s, BotRestarts).value)
  {
    var t := Act(c, s, BotRestarts).value;
    forall k | 0 <= k < |t.sends| ensures SendOk(t, t.sends[k]) {
      assert SendOk(s, s.sends[k]);
    }
  }

  lemma CallbackKeeps(c: Config, s: State, l: Label)
    requires Inv(c, s) && Act(c, s, l).Some?
    requires l.ReplyArrives? || l.PromiseSettles? || l.CallbackEnds?
    ensures Inv(c, Act(c, s, l).value)
  {
    hide Inv, Owns;
    assert CallbackOk(l.pid, s.callbacks[l.pid], s) by { CallbackOf(c, s, l.pid); }
    EndKeeps(c, s, l.pid);
    match l
    case ReplyArrives(pid) => if Awaits(s, pid, Replying(true)) { AwaitKeeps(c, s, pid, Settling); }
    case PromiseSettles(pid, token) =>
      if s.callbacks[pid].approved && token { AwaitKeeps(c, s, pid, Signing); }
    case CallbackEnds(_) =>
  }

  lemma CallbackOf(c: Config, s: State, pid: nat)
    requires Inv(c, s) && pid in s.callbacks
    ensures CallbackOk(pid, s.callbacks[pid], s)
  {
  }

  /** Every step keeps the invariant. */
  lemma StepKeepsInv(c: Config, s: State, l: Label)
    requires Inv(c, s) && Act(c, s, l).Some?
    ensures Inv(c, Act(c, s, l).value)
  {
    hide CallbacksOk, SendsOk, ActiveOk, PendingOk, VerdictsOk;
    match l
    case SomeoneDecides(r, approved) => CoreDecidesKeeps(c, s, r, approved, None);
    case Initiate(i, user) => NewFlowKeeps(c, s, i, user);
    case PollFinds(i, r) => MoveKeeps(c, s, i, Showing(r));
    case PollGivesUp(i) => MoveKeeps(c, s, i, Direct);
    case DirectSettles(i, token) => DirectKeeps(c, s, i, token);
    case CardShown(i) => CardKeeps(c, s, i);
    case FlowFails(i) => MoveKeeps(c, s, i, Ended);
    case Press(pid, r, user, approved) => PressKeeps(c, s, pid, r, user, approved);
    case DecideArrives(pid) => DecideArrivesKeeps(c, s, pid);
    case SendNow(pid) => SendNowKeeps(c, s, pid);
    case BotRestarts => BotRestartKeeps(c, s);
    case ReplyArrives(_) => CallbackKeeps(c, s, l);
    case PromiseSettles(_, _) => CallbackKeeps(c, s, l);
    case CallbackEnds(_) => CallbackKeeps(c, s, l);
    case _ => CoreKeeps(c, s, l);
  }

  lemma {:induction false} RunKeepsInv(c: Config, run: seq<Label>)
    requires Exec(c, run).Some?
    ensures Inv(c, Exec(c, run).value)
  {
    hide Act;
    if run == [] {
    } else {
      hide Inv;
      RunKeepsInv(c, run[..|run| - 1]);
      StepKeepsInv(c, Exec(c, run[..|run| - 1]).value, run[|run| - 1]);
    }
  }

  /** In every run sign-and-send is called at most once per initiated intent. */
  lemma AtMostOneSend(c: Config, run: seq<Label>, j: nat, k: nat)
    requires Exec(c, run).Some? && j < k < |Exec(c, run).value.sends|
    ensures Exec(c, run).value.sends[j].intentId != Exec(c, run).value.sends[k].intentId
  {
    hide Exec, CallbackOk, SendOk;
    RunKeepsInv(c, run);
  }

  // ---- which sends were pressed for ----

  /** The labels occur in the run, in this order. */
  predicate Follows(run: seq<Label>, labels: seq<Label>) {
    if labels == [] then true
    else if run == [] then false
    else
      var n, m := |run| - 1, |labels| - 1;
      Follows(run[..n], if run[n] == labels[m] then labels[..m] else labels)
  }

  lemma {:induction false} FollowsWithoutLast(run: seq<Label>, labels: seq<Label>)
    requires Follows(run, labels) && labels != []
    ensures Follows(run, labels[..|labels| - 1])
  {
    var n, m := |run| - 1, |labels| - 1;
    var fewer := labels[..m];
    if run[n] == labels[m] {
      if fewer != [] && run[n] == fewer[m - 1] { FollowsWithoutLast(run[..n], fewer); }
    } else {
      FollowsWithoutLast(run[..n], labels);
      if fewer != [] && run[n] == fewer[m - 1] { FollowsWithoutLast(run[..n], fewer); }
    }
  }

  lemma FollowsLonger(run: seq<Label>, labels: seq<Label>, l: Label)
    requires Follows(run, labels)
    ensures Follows(run + [l], labels) && Follows(run + [l], labels + [l])
  {
    assert (run + [l])[..|run|] == run && (labels + [l])[..|labels|] == labels;
    if labels != [] && l == labels[|labels| - 1] { FollowsWithoutLast(run, labels); }
  }

  lemma {:induction false} FollowsIsIn(run: seq<Label>, labels: seq<Label>, l: Label)
    requires Follows(run, labels) && l in labels
    ensures l in run
  {
    var n, m := |run| - 1, |labels| - 1;
    if run[n] != labels[m] || l != labels[m] {
      FollowsIsIn(run[..n], if run[n] == labels[m] then labels[..m] else labels, l);
    }
  }

  /** The steps of the flow of i up to its card for the request r. */
  function CardSteps(i: string, user: int, r: string): seq<Label> {
    [Initiate(i, user)] + [PollFinds(i, r)] + [CardShown(i)]
  }

  /** The steps up to the press of a button by the user who started the flow. */
  function PressSteps(pid: nat, cb: Callback): seq<Label> {
    CardSteps(cb.active.intentId, cb.active.user, cb.request) + [Press(pid, cb.request, cb.active.user, cb.approved)]
  }

  /** The steps of the callback up to what it waits for. */
  function CallbackSteps(pid: nat, cb: Callback): seq<Label> {
    match cb.wait
    case Deciding => PressSteps(pid, cb)
    case Replying(_) => PressSteps(pid, cb) + [DecideArrives(pid)]
    case Settling => PressSteps(pid, cb) + [DecideArrives(pid)] + [ReplyArrives(pid)]
    case Signing => PressSteps(pid, cb) + [DecideArrives(pid)] + [ReplyArrives(pid)] + [PromiseSettles(pid, true)]
    case Sending =>
      PressSteps(pid, cb) + [DecideArrives(pid)] + [ReplyArrives(pid)] + [PromiseSettles(pid, true)] + [SendNow(pid)]
  }

  function FlowSteps(i: string, f: Flow): seq<Label> {
    match f.stage
    case Direct => [Initiate(i, f.user)] + [PollGivesUp(i)]
    case Showing(r) => [Initiate(i, f.user)] + [PollFinds(i, r)]
    case _ => [Initiate(i, f.user)]
  }

  /** The steps behind a send: a press of Approve and all that follows it, or polls that gave up. */
  ghost predicate SendTraced(run: seq<Label>, flows: map<string, Flow>, send: Send) {
    send.intentId in flows &&
    var i, user := send.intentId, flows[send.intentId].user;
    match (send.callback, send.request)
    case (Some(pid), Some(r)) =>
      Follows(run, CallbackSteps(pid, Callback(r, Active(i, user, 0), true, Sending)))
    case (None, None) => Follows(run, [Initiate(i, user)] + [PollGivesUp(i)] + [DirectSettles(i, true)])
    case _ => false
  }

  predicate GaveUp(s: State, i: string) { At(s, i, Direct) || At(s, i, Ended) }

  ghost predicate FlowsTraced(run: seq<Label>, s: State) {
    (forall i :: i in s.flows ==> Follows(run, FlowSteps(i, s.flows[i]))) &&
    (forall i :: PollGivesUp(i) in run ==> GaveUp(s, i))
  }

  ghost predicate CardsTraced(run: seq<Label>, s: State) {
    forall r :: r in s.active ==> Follows(run, CardSteps(s.active[r].intentId, s.active[r].user, r))
  }

  ghost predicate CallbacksTraced(run: seq<Label>, s: State) {
    forall pid :: pid in s.callbacks ==> Follows(run, CallbackSteps(pid, s.callbacks[pid]))
  }

  ghost predicate SendsTraced(run: seq<Label>, s: State) {
    forall k :: 0 <= k < |s.sends| ==> SendTraced(run, s.flows, s.sends[k])
  }

  ghost predicate Traced(run: seq<Label>, s: State) {
    FlowsTraced(run, s) && CardsTraced(run, s) && CallbacksTraced(run, s) && SendsTraced(run, s)
  }

  /** Labels that move a flow. */
  predicate OfFlow(l: Label) {
    l.Initiate? || l.PollFinds? || l.PollGivesUp? || l.DirectSettles? || l.CardShown? || l.FlowFails?
  }

  predicate OfCallback(l: Label) {
    l.Press? || l.DecideArrives? || l.ReplyArrives? || l.PromiseSettles? || l.SendNow? || l.CallbackEnds?
  }

  lemma OthersKeepFlows(c: Config, s: State, l: Label)
    requires Act(c, s, l).Some? && !OfFlow(l) && !l.BotRestarts?
    ensures Act(c, s, l).value.flows == s.flows
  {
    hide Pending.Decide, Pending.DecideSucceeds, Pending.Cleanup, Pending.Add;
    match l
    case Press(pid, r, user, approved) =>
    case DecideArrives(pid) =>
    case _ =>
  }

  /** One step of a flow: it is new, it stays, it goes on by its own label, or it ends. */
  lemma FlowStep(c: Config, s: State, l: Label, i: string)
    requires Act(c, s, l).Some? && i in Act(c, s, l).value.flows
    ensures var f := Act(c, s, l).value.flows[i];
      || (i !in s.flows && l == Initiate(i, f.user) && f.stage == Polling)
      || (i in s.flows && f.user == s.flows[i].user &&
          (|| f == s.flows[i]
           || f.stage == Ended
           || (s.flows[i].stage == Polling && l == PollGivesUp(i) && f.stage == Direct)
           || (s.flows[i].stage == Polling && f.stage.Showing? && l == PollFinds(i, f.stage.request))
           || (s.flows[i].stage.Showing? && l == CardShown(i) && f.stage == Buttons(s.flows[i].stage.request))))
  {
    if OfFlow(l) {
      match l
      case Initiate(_, _) =>
      case PollGivesUp(_) =>
      case CardShown(_) =>
      case _ =>
    } else if l.BotRestarts? {
    } else {
      hide Act;
      OthersKeepFlows(c, s, l);
    }
  }

  lemma FlowsOnlyGrow(c: Config, s: State, l: Label, i: string)
    requires Act(c, s, l).Some? && i in s.flows
    ensures i in Act(c, s, l).value.flows
  {
    if OfFlow(l) {
    } else if l.BotRestarts? {
    } else {
      hide Act;
      OthersKeepFlows(c, s, l);
    }
  }

  lemma FlowStaysTraced(c: Config, run: seq<Label>, s: State, l: Label, i: string)
    requires FlowsTraced(run, s) && Act(c, s, l).Some? && i in Act(c, s, l).value.flows
    ensures Follows(run + [l], FlowSteps(i, Act(c, s, l).value.flows[i]))
  {
    hide Act, Follows;
    FlowStep(c, s, l, i);
    if i in s.flows {
      var f, g := s.flows[i], Act(c, s, l).value.flows[i];
      FollowsLonger(run, FlowSteps(i, f), l);
      if g == f {
      } else if g.stage == Ended || g.stage.Buttons? {
        FirstStep(run, i, f);
        FollowsLonger(run, [Initiate(i, f.user)], l);
      } else {
        assert FlowSteps(i, g) == FlowSteps(i, f) + [l];
      }
    } else {
      FollowsLonger(run, [], l) by { NoLabels(run); }
      assert [] + [l] == [l];
    }
  }

  lemma FlowsStayTraced(c: Config, run: seq<Label>, s: State, l: Label)
    requires FlowsTraced(run, s) && Act(c, s, l).Some?
    ensures FlowsTraced(run + [l], Act(c, s, l).value)
  {
    hide Act, Follows, FlowSteps;
    var t := Act(c, s, l).value;
    forall i | i in t.flows ensures Follows(run + [l], FlowSteps(i, t.flows[i])) {
      FlowStaysTraced(c, run, s, l, i);
    }
    forall i | PollGivesUp(i) in run + [l] ensures GaveUp(t, i) {
      if PollGivesUp(i) in run {
        assert GaveUp(s, i);
        FlowsOnlyGrow(c, s, l, i);
        FlowStep(c, s, l, i);
      } else {
        GivesUp(c, s, i);
      }
    }
  }

  lemma GivesUp(c: Config, s: State, i: string)
    requires Act(c, s, PollGivesUp(i)).Some?
    ensures GaveUp(Act(c, s, PollGivesUp(i)).value, i)
  {
  }

  lemma NoLabels(run: seq<Label>)
    ensures Follows(run, [])
  {
  }

  /** Every flow was initiated. */
  lemma FirstStep(run: seq<Label>, i: string, f: Flow)
    requires Follows(run, FlowSteps(i, f))
    ensures Follows(run, [Initiate(i, f.user)])
  {
    hide Follows;
    var steps := FlowSteps(i, f);
    if f.stage.Direct? || f.stage.Showing? {
      FollowsWithoutLast(run, steps);
      assert steps[..1] == [Initiate(i, f.user)];
    }
  }

  /** Where a callback goes that is not deciding: on, or away. */
  lemma CallbackMoves(c: Config, s: State, l: Label)
    requires Act(c, s, l).Some? && (l.ReplyArrives? || l.PromiseSettles? || l.SendNow? || l.CallbackEnds?)
    ensures l.pid in s.callbacks
    ensures var cb, t := s.callbacks[l.pid], Act(c, s, l).value;
      || (t.callbacks == s.callbacks - {l.pid} && t.active == s.active - {cb.request})
      || (cb.wait == Replying(true) && l.ReplyArrives? && t.callbacks == s.callbacks[l.pid := cb.(wait := Settling)])
      || (cb.wait == Settling && l == PromiseSettles(l.pid, true) && cb.approved &&
          t.callbacks == s.callbacks[l.pid := cb.(wait := Signing)])
      || (cb.wait == Signing && l.SendNow? && t.callbacks == s.callbacks[l.pid := cb.(wait := Sending)])
    ensures Act(c, s, l).value.flows == s.flows
    ensures Act(c, s, l).value.active in [s.active, s.active - {s.callbacks[l.pid].request}]
  {
    match l
    case ReplyArrives(_) =>
    case PromiseSettles(_, _) =>
    case SendNow(_) =>
    case CallbackEnds(_) =>
  }

  lemma DecideTouches(c: Config, s: State, pid: nat)
    requires Awaits(s, pid, Deciding)
    ensures Act(c, s, DecideArrives(pid)).Some?
    ensures var t := Act(c, s, DecideArrives(pid)).value;
      t.active == s.active && t.flows == s.flows && t.sends == s.sends &&
      exists ok :: t.callbacks == s.callbacks[pid := s.callbacks[pid].(wait := Replying(ok))]
  {
    hide Pending.Decide, Pending.DecideSucceeds;
    var ok := Pending.DecideSucceeds(s.pending, s.callbacks[pid].request, s.now, c.ttlMs);
    assert Act(c, s, DecideArrives(pid)).value.callbacks ==
      s.callbacks[pid := s.callbacks[pid].(wait := Replying(ok))];
  }

  /** A new card is that of the flow whose card is shown. */
  lemma CardStep(c: Config, s: State, l: Label, r: string)
    requires Act(c, s, l).Some? && r in Act(c, s, l).value.active
    ensures var a := Act(c, s, l).value.active[r];
      (r in s.active && a == s.active[r]) ||
      (l == CardShown(a.intentId) && a.intentId in s.flows && a.user == s.flows[a.intentId].user &&
       s.flows[a.intentId].stage == Showing(r) && a.expiresAt == s.now + c.approvalTimeoutMs)
  {
    hide Pending.Decide, Pending.DecideSucceeds, Pending.Cleanup, Pending.Add;
    if l.CardShown? {
    } else if l.DecideArrives? {
      DecideTouches(c, s, l.pid);
    } else if l.Press? {
    } else if OfCallback(l) {
      hide Act;
      CallbackMoves(c, s, l);
    } else {
      hide Act;
      OthersShowNoCard(c, s, l);
    }
  }

  lemma OthersShowNoCard(c: Config, s: State, l: Label)
    requires Act(c, s, l).Some? && !l.CardShown? && !OfCallback(l)
    ensures forall r :: r in Act(c, s, l).value.active ==> r in s.active && Act(c, s, l).value.active[r] == s.active[r]
  {
    hide Pending.Decide, Pending.DecideSucceeds, Pending.Cleanup, Pending.Add;
  }

  lemma CardsStayTraced(c: Config, run: seq<Label>, s: State, l: Label)
    requires FlowsTraced(run, s) && CardsTraced(run, s) && Act(c, s, l).Some?
    ensures CardsTraced(run + [l], Act(c, s, l).value)
  {
    hide Act, Follows;
    var t := Act(c, s, l).value;
    forall r | r in t.active ensures Follows(run + [l], CardSteps(t.active[r].intentId, t.active[r].user, r)) {
      CardStep(c, s, l, r);
      var a := t.active[r];
      if r in s.active && a == s.active[r] {
        FollowsLonger(run, CardSteps(a.intentId, a.user, r), l);
      } else {
        FollowsLonger(run, FlowSteps(a.intentId, s.flows[a.intentId]), l);
      }
    }
  }

  /** One step of a callback: a press by the card's user makes it, its own labels move it on. */
  lemma CallbackStep(c: Config, s: State, l: Label, pid: nat)
    requires Act(c, s, l).Some? && pid in Act(c, s, l).value.callbacks
    ensures var cb := Act(c, s, l).value.callbacks[pid];
      || (l == Press(pid, cb.request, cb.active.user, cb.approved) && cb.wait == Deciding &&
          cb.request in s.active && cb.active == s.active[cb.request])
      || (pid in s.callbacks && SamePress(cb, s.callbacks[pid]) &&
          var was := s.callbacks[pid].wait;
          (|| cb.wait == was
           || (was == Deciding && l == DecideArrives(pid) && cb.wait.Replying?)
           || (was == Replying(true) && l == ReplyArrives(pid) && cb.wait == Settling)
           || (was == Settling && l == PromiseSettles(pid, true) && cb.approved && cb.wait == Signing)
           || (was == Signing && l == SendNow(pid) && cb.wait == Sending)))
  {
    if l.Press? {
    } else if l.DecideArrives? {
      DecideTouches(c, s, l.pid);
    } else if OfCallback(l) {
      CallbackMoves(c, s, l);
    } else {
      OthersKeepCallbacks(c, s, l);
    }
  }

  lemma OthersKeepCallbacks(c: Config, s: State, l: Label)
    requires Act(c, s, l).Some? && !OfCallback(l)
    ensures Act(c, s, l).value.callbacks == if l.BotRestarts? then map[] else s.callbacks
  {
    hide Pending.Decide, Pending.DecideSucceeds, Pending.Cleanup, Pending.Add;
  }

  lemma CallbackStaysTraced(c: Config, run: seq<Label>, s: State, l: Label, pid: nat)
    requires CardsTraced(run, s) && CallbacksTraced(run, s) && Act(c, s, l).Some?
    requires pid in Act(c, s, l).value.callbacks
    ensures Follows(run + [l], CallbackSteps(pid, Act(c, s, l).value.callbacks[pid]))
  {
    hide Act, Follows, CardSteps, PressSteps;
    CallbackStep(c, s, l, pid);
    var cb := Act(c, s, l).value.callbacks[pid];
    if l == Press(pid, cb.request, cb.active.user, cb.approved) && cb.wait == Deciding && cb.request in s.active &&
       cb.active == s.active[cb.request] {
      FollowsLonger(run, CardSteps(cb.active.intentId, cb.active.user, cb.request), l);
      PressFollowsCard(pid, cb);
    } else {
      SamePressSteps(pid, cb, s.callbacks[pid]);
      FollowsLonger(run, CallbackSteps(pid, s.callbacks[pid]), l);
    }
  }

  lemma PressFollowsCard(pid: nat, cb: Callback)
    ensures PressSteps(pid, cb) == CardSteps(cb.active.intentId, cb.active.user, cb.request) +
                                   [Press(pid, cb.request, cb.active.user, cb.approved)]
  {
  }

  lemma SamePressSteps(pid: nat, a: Callback, b: Callback)
    requires SamePress(a, b)
    ensures PressSteps(pid, a) == PressSteps(pid, b)
  {
  }

  lemma CallbacksStayTraced(c: Config, run: seq<Label>, s: State, l: Label)
    requires CardsTraced(run, s) && CallbacksTraced(run, s) && Act(c, s, l).Some?
    ensures CallbacksTraced(run + [l], Act(c, s, l).value)
  {
    hide Act, Follows, CardsTraced, CallbackSteps;
    var t := Act(c, s, l).value;
    forall pid | pid in t.callbacks ensures Follows(run + [l], CallbackSteps(pid, t.callbacks[pid])) {
      CallbackStaysTraced(c, run, s, l, pid);
    }
  }

  lemma SendsStep(c: Config, s: State, l: Label, k: nat)
    requires Act(c, s, l).Some? && k < |Act(c, s, l).value.sends|
    ensures var send := Act(c, s, l).value.sends[k];
      || (k < |s.sends| && send == s.sends[k])
      || (At(s, send.intentId, Direct) && l == DirectSettles(send.intentId, true) &&
          send == Send(l.intentId, None, None))
      || (l.SendNow? && Awaits(s, l.pid, Signing) && var cb := s.callbacks[l.pid];
          send == Send(cb.active.intentId, Some(l.pid), Some(cb.request)))
  {
    hide Pending.Decide, Pending.DecideSucceeds, Pending.Cleanup, Pending.Add;
    match l
    case DirectSettles(i, token) =>
    case SendNow(pid) =>
    case _ =>
  }

  lemma SendsStayTraced(c: Config, run: seq<Label>, s: State, l: Label)
    requires Inv(c, s) && Traced(run, s) && Act(c, s, l).Some?
    ensures SendsTraced(run + [l], Act(c, s, l).value)
  {
    hide Act, Follows, Inv;
    var t := Act(c, s, l).value;
    forall k | 0 <= k < |t.sends| ensures SendTraced(run + [l], t.flows, t.sends[k]) {
      SendsStep(c, s, l, k);
      var send := t.sends[k];
      if k < |s.sends| && send == s.sends[k] {
        SendStaysTraced(c, run, s, l, send);
      } else if l.DirectSettles? {
        FollowsLonger(run, FlowSteps(send.intentId, s.flows[send.intentId]), l);
        FlowsOnlyGrow(c, s, l, send.intentId);
        FlowStep(c, s, l, send.intentId);
      } else {
        SigningSends(c, s, l.pid);
        FollowsLonger(run, CallbackSteps(l.pid, s.callbacks[l.pid]), l);
      }
    }
  }

  lemma SendStaysTraced(c: Config, run: seq<Label>, s: State, l: Label, send: Send)
    requires SendTraced(run, s.flows, send) && Act(c, s, l).Some?
    ensures SendTraced(run + [l], Act(c, s, l).value.flows, send)
  {
    hide Act, Follows, CallbackSteps;
    var i := send.intentId;
    var user := s.flows[i].user;
    FlowsOnlyGrow(c, s, l, i);
    FlowStep(c, s, l, i);
    match (send.callback, send.request)
    case (Some(pid), Some(r)) =>
      FollowsLonger(run, CallbackSteps(pid, Callback(r, Active(i, user, 0), true, Sending)), l);
    case _ => FollowsLonger(run, [Initiate(i, user)] + [PollGivesUp(i)] + [DirectSettles(i, true)], l);
  }

  /** A callback that signs belongs to its flow, and its press was an approval. */
  lemma SigningSends(c: Config, s: State, pid: nat)
    requires Inv(c, s) && Awaits(s, pid, Signing)
    ensures var cb := s.callbacks[pid];
      cb.approved && cb.active.intentId in s.flows && s.flows[cb.active.intentId].user == cb.active.user &&
      Act(c, s, SendNow(pid)).Some? && Act(c, s, SendNow(pid)).value.flows == s.flows
  {
    assert CallbackOk(pid, s.callbacks[pid], s);
  }

  lemma {:induction false} RunKeepsTraced(c: Config, run: seq<Label>)
    requires Exec(c, run).Some?
    ensures Traced(run, Exec(c, run).value)
  {
    hide Act, Inv;
    if run == [] {
    } else {
      hide FlowsTraced, CardsTraced, CallbacksTraced, SendsTraced;
      var before, l := run[..|run| - 1], run[|run| - 1];
      var s := Exec(c, before).value;
      RunKeepsTraced(c, before);
      RunKeepsInv(c, before);
      FlowsStayTraced(c, before, s, l);
      CardsStayTraced(c, before, s, l);
      CallbacksStayTraced(c, before, s, l);
      SendsStayTraced(c, before, s, l);
      assert before + [l] == run;
    }
  }

  /** Against packages/adapter-telegram/README.md:57, where only the user who started a transaction
      can approve it: in every run a send goes back, exactly unless the polls of its flow gave up,
      to these steps of the run: the flow's start, its poll, its card, a press of Approve on that
      card by the user who started the flow, the core's decision, its reply, the token and the
      sending.  The core accepted the press no later than the pending lifetime after the request
      came in, and the request named the intent that is sent. */
  lemma SendWasPressedForIff(c: Config, run: seq<Label>, k: nat)
    requires Exec(c, run).Some? && k < |Exec(c, run).value.sends|
    ensures var s := Exec(c, run).value; var send := s.sends[k]; var i := send.intentId;
      (PressedFor(s, send) <==> PollGivesUp(i) !in run) &&
      i in s.flows && var user := s.flows[i].user;
      if PressedFor(s, send) then
        var pid, r := send.callback.value, send.request.value;
        Follows(run, [Initiate(i, user), PollFinds(i, r), CardShown(i), Press(pid, r, user, true), DecideArrives(pid),
                      ReplyArrives(pid), PromiseSettles(pid, true), SendNow(pid)]) &&
        r in s.requests && s.requests[r].summary.intentId == i && s.verdicts[r].at - s.requests[r].at <= c.ttlMs
      else Follows(run, [Initiate(i, user), PollGivesUp(i), DirectSettles(i, true)])
  {
    hide Exec, CallbackOk, Follows;
    RunKeepsInv(c, run);
    RunKeepsTraced(c, run);
    var s := Exec(c, run).value;
    var send := s.sends[k];
    assert SendOk(s, send) && SendTraced(run, s.flows, send);
    var i, user := send.intentId, s.flows[send.intentId].user;
    if send.callback.Some? {
      var pid, r := send.callback.value, send.request.value;
      assert CallbackSteps(pid, Callback(r, Active(i, user, 0), true, Sending)) ==
        [Initiate(i, user), PollFinds(i, r), CardShown(i), Press(pid, r, user, true), DecideArrives(pid),
         ReplyArrives(pid), PromiseSettles(pid, true), SendNow(pid)];
    } else {
      var steps := [Initiate(i, user)] + [PollGivesUp(i)] + [DirectSettles(i, true)];
      assert steps == [Initiate(i, user), PollGivesUp(i), DirectSettles(i, true)];
      FollowsIsIn(run, steps, PollGivesUp(i));
    }
  }

  lemma ExecNext(c: Config, run: seq<Label>, l: Label)
    requires Exec(c, run).Some?
    ensures Exec(c, run + [l]) == Act(c, Exec(c, run).value, l)
  {
    hide Act;
    assert (run + [l])[..|run|] == run;
  }

  lemma PollsGivenUp(c: Config, i: string, user: int)
    ensures Exec(c, [Initiate(i, user), PollGivesUp(i)]) == Some(INIT.(flows := map[i := Flow(user, Direct)]))
  {
    assert Exec(c, []) == Some(INIT);
    hide Exec;
    ExecNext(c, [], Initiate(i, user));
    ExecNext(c, [Initiate(i, user)], PollGivesUp(i));
    assert [] + [Initiate(i, user)] == [Initiate(i, user)];
    assert [Initiate(i, user)] + [PollGivesUp(i)] == [Initiate(i, user), PollGivesUp(i)];
    assert INIT.flows[i := Flow(user, Polling)][i := Flow(user, Direct)] == map[i := Flow(user, Direct)];
  }

  /** A bot that gave up polling sends what somebody else approves: nobody pressed a button. */
  lemma SentWithoutAPress(c: Config, i: string, user: int, r: string, hash: string)
    ensures var request := CoreAdds(r, Pending.Summary(i, hash));
      var run := [Initiate(i, user), PollGivesUp(i)] + [request] + [SomeoneDecides(r, true)] + [DirectSettles(i, true)];
      Exec(c, run).Some? &&
      var s := Exec(c, run).value;
      s.sends == [Send(i, None, None)] && s.pressed == map[] && s.verdicts == map[r := Verdict(true, 0, None)]
  {
    hide Exec;
    PollsGivenUp(c, i, user);
    var request := CoreAdds(r, Pending.Summary(i, hash));
    ExecNext(c, [Initiate(i, user), PollGivesUp(i)], request);
    ExecNext(c, [Initiate(i, user), PollGivesUp(i)] + [request], SomeoneDecides(r, true));
    ExecNext(c, [Initiate(i, user), PollGivesUp(i)] + [request] + [SomeoneDecides(r, true)], DirectSettles(i, true));
  }

  // ---- a press is enough ----

  /** The card of the flow i for the request r is there, and the request is held since it came in. */
  predicate Carded(c: Config, s: State, t: State, i: string, user: int, r: string, hash: string) {
    && t.now == s.now && t.sends == s.sends && t.pressed == s.pressed
    && r in t.active && t.active[r] == Active(i, user, s.now + c.approvalTimeoutMs)
    && r in t.pending && t.pending[r] == Pending.Entry(Pending.Summary(i, hash), s.now, false)
  }

  /** The labels that bring the card of a new flow. */
  function CardLabels(i: string, user: int, r: string, hash: string): seq<Label> {
    [Initiate(i, user)] + ([CoreAdds(r, Pending.Summary(i, hash))] + ([PollFinds(i, r)] + [CardShown(i)]))
  }

  lemma CardComes(c: Config, run: seq<Label>, i: string, user: int, r: string, hash: string)
    requires Exec(c, run).Some? && i !in Exec(c, run).value.flows && r !in Exec(c, run).value.requests
    ensures var s := Exec(c, run).value;
      var longer := run + CardLabels(i, user, r, hash);
      Exec(c, longer).Some? && Carded(c, s, Exec(c, longer).value, i, user, r, hash)
  {
    hide Exec;
    ExecNext(c, run, Initiate(i, user));
    var r1 := run + [Initiate(i, user)];
    ExecNext(c, r1, CoreAdds(r, Pending.Summary(i, hash)));
    var r2 := r1 + [CoreAdds(r, Pending.Summary(i, hash))];
    ExecNext(c, r2, PollFinds(i, r));
    ExecNext(c, r2 + [PollFinds(i, r)], CardShown(i));
    assert run + CardLabels(i, user, r, hash) == r2 + [PollFinds(i, r)] + [CardShown(i)];
  }

  /** The callback waits like this, and nothing has been sent since s. */
  predicate Waits(s: State, t: State, pid: nat, i: string, r: string, w: Wait) {
    t.sends == s.sends && pid in t.callbacks && t.callbacks[pid].request == r && t.callbacks[pid].approved &&
    t.callbacks[pid].active.intentId == i && t.callbacks[pid].wait == w
  }

  lemma PressIsGranted(c: Config, s: State, pid: nat, r: string, user: int)
    requires pid !in s.pressed && r in s.active && s.active[r].user == user
    requires Pending.DecideSucceeds(s.pending, r, s.now, c.ttlMs)
    ensures Act(c, s, Press(pid, r, user, true)).Some?
    ensures var t := Act(c, s, Press(pid, r, user, true)).value;
      Act(c, t, DecideArrives(pid)).Some? &&
      Waits(s, Act(c, t, DecideArrives(pid)).value, pid, s.active[r].intentId, r, Replying(true))
  {
    hide Pending.Decide;
  }

  lemma GrantIsSent(c: Config, run: seq<Label>, s: State, pid: nat, i: string, r: string)
    requires Exec(c, run).Some? && Waits(s, Exec(c, run).value, pid, i, r, Replying(true))
    ensures var longer := run + [ReplyArrives(pid)] + [PromiseSettles(pid, true)] + [SendNow(pid)];
      Exec(c, longer).Some? && Exec(c, longer).value.sends == s.sends + [Send(i, Some(pid), Some(r))]
  {
    hide Exec;
    ExecNext(c, run, ReplyArrives(pid));
    ExecNext(c, run + [ReplyArrives(pid)], PromiseSettles(pid, true));
    ExecNext(c, run + [ReplyArrives(pid)] + [PromiseSettles(pid, true)], SendNow(pid));
  }

  /** From every reachable state: a flow whose card is shown is sent after one press of Approve by
      its user no later than the pending lifetime after the request came in. */
  lemma PressedFlowIsSent(c: Config, run: seq<Label>, i: string, user: int, r: string, hash: string, pid: nat, ms: nat)
    requires Exec(c, run).Some? && i !in Exec(c, run).value.flows && r !in Exec(c, run).value.requests
    requires pid !in Exec(c, run).value.pressed && ms <= c.ttlMs
    ensures var s := Exec(c, run).value;
      var card := run + CardLabels(i, user, r, hash);
      var press := card + [Advance(ms)] + [Press(pid, r, user, true)] + [DecideArrives(pid)];
      var all := press + [ReplyArrives(pid)] + [PromiseSettles(pid, true)] + [SendNow(pid)];
      Exec(c, all).Some? && Exec(c, all).value.sends == s.sends + [Send(i, Some(pid), Some(r))]
  {
    hide Exec;
    var s := Exec(c, run).value;
    var card := run + CardLabels(i, user, r, hash);
    CardComes(c, run, i, user, r, hash);
    ExecNext(c, card, Advance(ms));
    var t := Exec(c, card + [Advance(ms)]).value;
    Waited(c, Exec(c, card).value, ms);
    PressIsGranted(c, t, pid, r, user);
    ExecNext(c, card + [Advance(ms)], Press(pid, r, user, true));
    ExecNext(c, card + [Advance(ms)] + [Press(pid, r, user, true)], DecideArrives(pid));
    GrantIsSent(c, card + [Advance(ms)] + [Press(pid, r, user, true)] + [DecideArrives(pid)], t, pid, i, r);
  }

  lemma Waited(c: Config, s: State, ms: nat)
    ensures Act(c, s, Advance(ms)) == Some(s.(now := s.now + ms))
  {
  }

  // ---- what is gone stays gone ----

  lemma OthersEndNoCallback(c: Config, s: State, l: Label, pid: nat)
    requires Act(c, s, l).Some? && pid in s.callbacks && !l.BotRestarts?
    requires !OfCallback(l) || l.Press? || l.DecideArrives?
    ensures pid in Act(c, s, l).value.callbacks
  {
    if l.Press? {
    } else if l.DecideArrives? {
      DecideTouches(c, s, l.pid);
    } else {
      OthersKeepCallbacks(c, s, l);
    }
  }

  /** A callback that is over takes its card with it. */
  lemma EndedCardIsGone(c: Config, s: State, l: Label, pid: nat)
    requires Act(c, s, l).Some? && pid in s.callbacks && pid !in Act(c, s, l).value.callbacks
    ensures s.callbacks[pid].request !in Act(c, s, l).value.active
  {
    if l.BotRestarts? {
    } else if l.ReplyArrives? || l.PromiseSettles? || l.SendNow? || l.CallbackEnds? {
      hide Act;
      CallbackMoves(c, s, l);
    } else {
      hide Act;
      OthersEndNoCallback(c, s, l, pid);
    }
  }

  /** A card goes only when its time is over, when a callback on it ends, or when the bot restarts. */
  lemma CardStays(c: Config, s: State, l: Label, r: string)
    requires Act(c, s, l).Some? && r in s.active && r !in Act(c, s, l).value.active
    ensures || l.BotRestarts?
            || (l == Expire(r) && s.active[r].expiresAt <= s.now)
            || (OfCallback(l) && l.pid in s.callbacks && s.callbacks[l.pid].request == r &&
                l.pid !in Act(c, s, l).value.callbacks)
  {
    if l.Press? {
    } else if l.DecideArrives? {
      DecideTouches(c, s, l.pid);
    } else if OfCallback(l) {
      CallbackMoves(c, s, l);
    } else {
      hide Pending.Decide, Pending.DecideSucceeds, Pending.Cleanup, Pending.Add;
    }
  }

  /** What time and the core do: a card may go exactly once its time is over, and then it alone is
      gone; the core's cleanup drops exactly the undecided requests older than the lifetime, and
      closing all of them. */
  lemma TimeAndCore(c: Config, s: State, r: string)
    ensures Act(c, s, Expire(r)).Some? <==> r in s.active && s.active[r].expiresAt <= s.now
    ensures Act(c, s, Expire(r)).Some? ==>
      var t := Act(c, s, Expire(r)).value; t == s.(active := t.active) && t.active == s.active - {r}
    ensures Act(c, s, CoreCleanup).Some? && Act(c, s, CoreCloses) == Some(s.(pending := map[]))
    ensures r in Act(c, s, CoreCleanup).value.pending <==>
      r in s.pending && (s.pending[r].decided || s.now - s.pending[r].createdAt <= c.ttlMs)
  {
  }

  /** The flow has no step left: it has ended, or its card and its callbacks are gone. */
  ghost predicate Over(s: State, i: string) {
    && i in s.flows && (s.flows[i].stage == Ended || s.flows[i].stage.Buttons?)
    && (forall r :: r in s.active ==> s.active[r].intentId != i)
    && (forall pid :: pid in s.callbacks ==> s.callbacks[pid].active.intentId != i)
  }

  function SendsOf(sends: seq<Send>, i: string): nat {
    if sends == [] then 0 else SendsOf(sends[..|sends| - 1], i) + if sends[|sends| - 1].intentId == i then 1 else 0
  }

  lemma OverStays(c: Config, s: State, l: Label, i: string)
    requires Over(s, i) && Act(c, s, l).Some?
    ensures Over(Act(c, s, l).value, i)
  {
    hide Act;
    var t := Act(c, s, l).value;
    FlowsOnlyGrow(c, s, l, i);
    FlowStep(c, s, l, i);
    forall r | r in t.active ensures t.active[r].intentId != i { CardStep(c, s, l, r); }
    forall pid | pid in t.callbacks ensures t.callbacks[pid].active.intentId != i { CallbackStep(c, s, l, pid); }
  }

  lemma OverSendsNothing(c: Config, s: State, l: Label, i: string)
    requires Over(s, i) && Act(c, s, l).Some?
    ensures SendsOf(Act(c, s, l).value.sends, i) == SendsOf(s.sends, i)
  {
    if l.DirectSettles? {
      OneMoreSend(s.sends, Send(l.intentId, None, None), i);
    } else if l.SendNow? {
      var cb := s.callbacks[l.pid];
      OneMoreSend(s.sends, Send(cb.active.intentId, Some(l.pid), Some(cb.request)), i);
    } else {
      OthersSendNothing(c, s, l);
    }
  }

  lemma OthersSendNothing(c: Config, s: State, l: Label)
    requires Act(c, s, l).Some? && !l.DirectSettles? && !l.SendNow?
    ensures Act(c, s, l).value.sends == s.sends
  {
    hide Pending.Decide, Pending.DecideSucceeds, Pending.Cleanup, Pending.Add;
  }

  lemma OneMoreSend(sends: seq<Send>, send: Send, i: string)
    ensures SendsOf(sends + [send], i) == SendsOf(sends, i) + if send.intentId == i then 1 else 0
  {
    assert (sends + [send])[..|sends|] == sends;
  }

  lemma {:induction false} NothingMoreIsSent(c: Config, run: seq<Label>, more: seq<Label>, i: string)
    requires Exec(c, run).Some? && Over(Exec(c, run).value, i) && Exec(c, run + more).Some?
    ensures Over(Exec(c, run + more).value, i)
    ensures SendsOf(Exec(c, run + more).value.sends, i) == SendsOf(Exec(c, run).value.sends, i)
    decreases |more|
  {
    hide Act, Over;
    if more == [] {
      assert run + more == run;
    } else {
      var n := |more| - 1;
      assert (run + more)[..|run + more| - 1] == run + more[..n];
      NothingMoreIsSent(c, run, more[..n], i);
      OverStays(c, Exec(c, run + more[..n]).value, more[n], i);
      OverSendsNothing(c, Exec(c, run + more[..n]).value, more[n], i);
    }
  }

  lemma StoppedIsOver(c: Config, run: seq<Label>, l: Label, i: string)
    requires Exec(c, run).Some? && i in Exec(c, run).value.flows && Exec(c, run + [l]).Some?
    requires l.BotRestarts? || l == FlowFails(i)
    ensures Over(Exec(c, run + [l]).value, i)
  {
    hide Exec, Owns, CallbackOk, SendOk;
    RunKeepsInv(c, run);
    ExecNext(c, run, l);
    var s := Exec(c, run).value;
    if l == FlowFails(i) {
      forall r | r in s.active ensures s.active[r].intentId != i {
        CardOwner(c, s, r);
        NotStored(s, i, r, s.active[r]);
      }
      forall pid | pid in s.callbacks ensures s.callbacks[pid].active.intentId != i {
        assert CallbackOk(pid, s.callbacks[pid], s);
        CallbackOwner(s, pid);
        NotStored(s, i, s.callbacks[pid].request, s.callbacks[pid].active);
      }
    }
  }

  lemma CardOwner(c: Config, s: State, r: string)
    requires Inv(c, s) && r in s.active
    ensures Owns(s.flows, r, s.active[r])
  {
    hide CallbackOk, SendOk;
  }

  lemma CallbackOwner(s: State, pid: nat)
    requires pid in s.callbacks && CallbackOk(pid, s.callbacks[pid], s)
    ensures Owns(s.flows, s.callbacks[pid].request, s.callbacks[pid].active)
  {
  }

  lemma NotStored(s: State, i: string, r: string, a: Active)
    requires Owns(s.flows, r, a) && i in s.flows && !s.flows[i].stage.Buttons?
    ensures a.intentId != i
  {
  }

  /** A restart of the bot stops every flow there is, and a failure its own: whatever happens
      afterwards, nothing more is sent for its intent. */
  lemma StoppedFlowsSendNothing(c: Config, run: seq<Label>, l: Label, more: seq<Label>, i: string)
    requires Exec(c, run).Some? && i in Exec(c, run).value.flows && (l.BotRestarts? || l == FlowFails(i))
    requires Exec(c, run + [l]).Some? && Exec(c, run + [l] + more).Some?
    ensures SendsOf(Exec(c, run + [l] + more).value.sends, i) == SendsOf(Exec(c, run).value.sends, i)
  {
    hide Exec, Over;
    StoppedIsOver(c, run, l, i);
    NothingMoreIsSent(c, run + [l], more, i);
    ExecNext(c, run, l);
    assert Act(c, Exec(c, run).value, l).value.sends == Exec(c, run).value.sends;
  }
}
