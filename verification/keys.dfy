/** Which private key a signature is made with. */
module Keys {
  import opened Types
  import opened Protocol
  import opened Frames
  import opened History
  import opened Moves
  import Text
  import Policy
  import Tokens
  import Builders
  import Wallet

  /** The label puts another key in the place of address a, or none. */
  predicate Replaces(l: Label, a: string) {
    l.Restart? || (l.KeyLocked? && Text.Lower(l.address) == a) || (l.KeyUnlocked? && Text.Lower(l.address) == a)
  }

  /** The j-th label of the run unlocked this key for the lower-case address, and nothing has
      replaced it since. */
  predicate UnlockedAt(run: seq<Label>, j: nat, a: string, key: string) {
    j < |run| && run[j].KeyUnlocked? && Text.Lower(run[j].address) == a && run[j].key == key &&
    forall m | j < m < |run| :: !Replaces(run[m], a)
  }

  ghost predicate Held(run: seq<Label>, a: string, key: string) { exists j: nat :: UnlockedAt(run, j, a, key) }

  lemma UnlockedStep(c: Config, s: State, l: Label)
    requires Act(c, s, l).Some?
    ensures Act(c, s, l).value.unlocked ==
      match l
      case KeyUnlocked(address, key) => s.unlocked[Text.Lower(address) := key]
      case KeyLocked(address) => s.unlocked - {Text.Lower(address)}
      case Restart => map[]
      case _ => s.unlocked
  {
    hide Builders.WellFormed, Text.Lower;
    if l.KeyUnlocked? || l.KeyLocked? || l.Restart? {
    } else {
      OthersKeepKeys(c, s, l);
    }
  }

  lemma OthersKeepKeys(c: Config, s: State, l: Label)
    requires Act(c, s, l).Some? && !l.KeyUnlocked? && !l.KeyLocked? && !l.Restart?
    ensures Act(c, s, l).value.unlocked == s.unlocked
  {
    hide Act, Builders.WellFormed, PromptAdded;
    if l.Built? {
      BuiltStepFrame(c, s, l);
    } else if l.Simulated? {
      SimulatedFrame(c, s, l.pid, l.riskScore, l.freshRequest);
    } else if l.PromptSettled? {
      IssueFrame(c, s, l.pid, l.freshToken);
    } else if l.SigningReturned? {
      SignatureFrame(c, s, l.pid, l.ok);
    } else if l.WebDecide? || l.PromptAnswered? {
      ReplyFrame(c, s, l);
    } else if Environment(l) {
      CleanersKeepKeys(c, s, l);
    } else {
      WorkFrame(c, s, l);
    }
  }

  lemma CleanersKeepKeys(c: Config, s: State, l: Label)
    requires l.Advance? || l.TokenCleanup? || l.PendingCleanup? || l.RateCleanup? || l.ClosePending?
    requires Act(c, s, l).Some?
    ensures Act(c, s, l).value.unlocked == s.unlocked
  {
    hide Builders.WellFormed, Tokens.Cleanup;
  }

  lemma HeldOn(run: seq<Label>, l: Label, a: string, key: string)
    ensures Held(run + [l], a, key) <==>
      (l.KeyUnlocked? && Text.Lower(l.address) == a && l.key == key) || (Held(run, a, key) && !Replaces(l, a))
  {
    hide Text.Lower;
    var more := run + [l];
    assert more[|run|] == l && forall m | 0 <= m < |run| :: more[m] == run[m];
    if j: nat :| UnlockedAt(more, j, a, key) {
      if j < |run| {
        assert !Replaces(more[|run|], a);
        assert UnlockedAt(run, j, a, key) by {
          forall m | j < m < |run| ensures !Replaces(run[m], a) { assert !Replaces(more[m], a); }
        }
      }
    }
    if l.KeyUnlocked? && Text.Lower(l.address) == a && l.key == key {
      assert UnlockedAt(more, |run|, a, key);
    } else if Held(run, a, key) && !Replaces(l, a) {
      var j: nat :| UnlockedAt(run, j, a, key);
      assert UnlockedAt(more, j, a, key) by {
        forall m | j < m < |more| ensures !Replaces(more[m], a) { if m < |run| { assert !Replaces(run[m], a); } }
      }
    }
  }

  /** A key is in memory exactly from its unlocking until it is replaced, locked or lost. */
  lemma {:induction false} UnlockedIff(c: Config, run: seq<Label>, a: string, key: string)
    requires Exec(c, run).Some?
    ensures var s := Exec(c, run).value; (a in s.unlocked && s.unlocked[a] == key <==> Held(run, a, key))
  {
    hide Act, Text.Lower;
    if run == [] {
    } else {
      hide Held;
      var before, l := run[..|run| - 1], run[|run| - 1];
      UnlockedIff(c, before, a, key);
      UnlockedStep(c, Exec(c, before).value, l);
      HeldOn(before, l, a, key);
      assert before + [l] == run;
    }
  }

  // ---- the key a handler carries ----

  /** Handlers about to sign were there before, or are the one this step gave the wallet's key. */
  ghost predicate KeysTaken(s: State, after: map<nat, Handler>, pid: nat) {
    forall q :: q in after && after[q].SignSigning? ==>
      (q in s.handlers && after[q] == s.handlers[q]) || (q == pid && HoldsKey(s, after[q]))
  }

  predicate HoldsKey(s: State, h: Handler)
    requires h.SignSigning?
  {
    var a := Text.Lower(h.job.intent.wallet);
    a in s.unlocked && h.key == s.unlocked[a]
  }

  lemma PutTakesKey(s: State, pid: nat, next: Option<Handler>)
    requires next.Some? && next.value.SignSigning? ==> HoldsKey(s, next.value)
    ensures KeysTaken(s, Put(s.handlers, pid, next), pid)
  {
    hide Builders.WellFormed, HoldsKey;
  }

  lemma GateGivesKey(s: State, job: Job, extras: Option<Extras>)
    ensures match AuthorizeNext(s, job, extras)
      case None => true
      case Some(h) => h.SignSigning? && HoldsKey(s, h)
  {
    hide Text.Lower, Wallet.SpendsToken, Tokens.Validate, Builders.WellFormed;
  }

  lemma PlanGivesKey(c: Config, s: State, i: ValidIntent, offered: Option<string>,
                     client: Option<Builders.OneInchReply>, plan: BuildPlan)
    ensures var next := SignPlanNext(c, s, i, offered, client, plan);
      next.Some? && next.value.SignSigning? ==> HoldsKey(s, next.value)
  {
    hide Text.Lower, AuthorizeNext, Builders.WellFormed, Charge, Stops, NewJob;
    var t := Charge(c, s, i, None);
    ChargeFrame(c, s, i, None);
    if !Stops(c, s, i, offered, plan) { GateGivesKey(t, NewJob(c, s, i, offered, client, plan), None); }
  }

  lemma PlanTakesKey(c: Config, s: State, pid: nat, h: Handler, client: Option<Builders.OneInchReply>, plan: BuildPlan,
                     newId: string)
    requires h.BuildBuilding? || h.ApproveBuilding? || h.SignBuilding?
    ensures KeysTaken(s, OnPlan(c, s, pid, h, client, plan, newId).handlers, pid)
  {
    hide Builders.WellFormed, OnRiskKnown, OnSignPlan, SignPlanNext, KeysTaken, HoldsKey;
    match h
    case BuildBuilding(_) => PutTakesKey(s, pid, None);
    case ApproveBuilding(i) =>
      if c.rpc(i.chainId) {
        PutTakesKey(s, pid, Some(ApproveSimulating(i, plan)));
      } else {
        RiskKnownFrame(c, s, pid, i, plan, 0, newId);
        PutTakesKey(s, pid, RiskKnownNext(c, s, i, plan, 0, newId));
      }
    case SignBuilding(i, offered) =>
      SignPlanFrame(c, s, pid, i, offered, client, plan);
      PlanGivesKey(c, s, i, offered, client, plan);
      PutTakesKey(s, pid, SignPlanNext(c, s, i, offered, client, plan));
  }

  lemma BuiltTakesKey(c: Config, s: State, pid: nat, h: Handler, client: Option<Builders.OneInchReply>, newId: string)
    requires h.BuildBuilding? || h.ApproveBuilding? || h.SignBuilding?
    ensures KeysTaken(s, OnBuilt(c, s, pid, h, client, newId).handlers, pid)
  {
    hide Builders.WellFormed, Builders.BuildFromIntent, OnPlan, KeysTaken;
    match Builders.BuildFromIntent(c.keccak, h.intent, client)
    case Err(_) => PutTakesKey(s, pid, None);
    case Ok(plan) => PlanTakesKey(c, s, pid, h, client, plan, newId);
  }

  lemma GateTakesKey(c: Config, s: State, l: Label)
    requires Act(c, s, l).Some? && (l.Built? || l.Estimated?)
    ensures KeysTaken(s, Act(c, s, l).value.handlers, l.pid)
  {
    hide Builders.WellFormed, OnBuilt, OnAuthorize, AuthorizeNext, KeysTaken, HoldsKey;
    match l
    case Built(pid, client, newId) => BuiltTakesKey(c, s, pid, s.handlers[pid], client, newId);
    case Estimated(pid, extras) =>
      AuthorizeFrame(s, pid, s.handlers[pid].job, extras);
      GateGivesKey(s, s.handlers[pid].job, extras);
      PutTakesKey(s, pid, AuthorizeNext(s, s.handlers[pid].job, extras));
  }

  ghost predicate NoNewSigner(before: map<nat, Handler>, after: map<nat, Handler>) {
    forall q :: q in after && after[q].SignSigning? ==> q in before && after[q] == before[q]
  }

  lemma PutNoSigner(handlers: map<nat, Handler>, pid: nat, next: Option<Handler>)
    requires next.None? || !next.value.SignSigning?
    ensures NoNewSigner(handlers, Put(handlers, pid, next))
  {
    hide Builders.WellFormed;
  }

  lemma WorkersTakeNoKey(c: Config, s: State, l: Label)
    requires Act(c, s, l).Some? && (l.PromptSettled? || l.SigningReturned? || l.Sent?)
    ensures NoNewSigner(s.handlers, Act(c, s, l).value.handlers)
  {
    hide Builders.WellFormed, NoNewSigner, OnSigned, Signable;
    PutNoSigner(s.handlers, l.pid, None);
    match l
    case PromptSettled(pid, _) => if s.settled[s.handlers[pid].request] {} else {}
    case SigningReturned(pid, ok) => if ok { SignedTakesNoKey(c, s, pid, s.handlers[pid]); } else {}
    case Sent(_) =>
  }

  lemma SimulatedTakesNoKey(c: Config, s: State, pid: nat, risk: Option<nat>, newId: string)
    requires Act(c, s, Simulated(pid, risk, newId)).Some?
    ensures NoNewSigner(s.handlers, Act(c, s, Simulated(pid, risk, newId)).value.handlers)
  {
    hide Builders.WellFormed, OnRiskKnown, NoNewSigner;
    PutNoSigner(s.handlers, pid, None);
    if risk.Some? {
      var h := s.handlers[pid];
      RiskKnownFrame(c, s, pid, h.intent, h.plan, risk.value, newId);
      PutNoSigner(s.handlers, pid, RiskKnownNext(c, s, h.intent, h.plan, risk.value, newId));
    } else {}
  }

  lemma SignedTakesNoKey(c: Config, s: State, pid: nat, h: Handler)
    requires h.SignSigning?
    ensures NoNewSigner(s.handlers, OnSigned(c, s, pid, h).handlers)
  {
    hide Builders.WellFormed, NoNewSigner;
    PutNoSigner(s.handlers, pid, None);
    PutNoSigner(s.handlers, pid, Some(SignBroadcasting(h.job.intent)));
    if c.rpc(h.job.intent.chainId) {} else {}
  }

  lemma NewcomersTakeNoKey(c: Config, s: State, l: Label)
    requires Act(c, s, l).Some? && (l.ReceiveBuild? || l.ReceiveApprove? || l.ReceiveSign?)
    ensures NoNewSigner(s.handlers, Act(c, s, l).value.handlers)
  {
    hide Builders.WellFormed, Decision, NoNewSigner;
    match l
    case ReceiveBuild(i) =>
      PutNoSigner(s.handlers, s.nextPid, Some(BuildBuilding(i)));
      ReceiveBuildFrame(c, s, i);
      if Decision(c, s, i, None) == Policy.Deny { Unmoved(s.handlers); } else {}
    case ReceiveApprove(i) => PutNoSigner(s.handlers, s.nextPid, Some(ApproveBuilding(i)));
    case ReceiveSign(i, offered) => PutNoSigner(s.handlers, s.nextPid, Some(SignBuilding(i, offered)));
  }

  lemma Unmoved(handlers: map<nat, Handler>)
    ensures NoNewSigner(handlers, handlers) && NoNewSigner(handlers, map[])
  {
  }

  lemma OthersTakeNoKey(c: Config, s: State, l: Label)
    requires Act(c, s, l).Some? && !l.Built? && !l.Estimated?
    ensures NoNewSigner(s.handlers, Act(c, s, l).value.handlers)
  {
    hide Act, Builders.WellFormed, NoNewSigner;
    Unmoved(s.handlers);
    if l.Simulated? {
      SimulatedTakesNoKey(c, s, l.pid, l.riskScore, l.freshRequest);
    } else if l.PromptSettled? || l.SigningReturned? || l.Sent? {
      WorkersTakeNoKey(c, s, l);
    } else if l.ReceiveBuild? || l.ReceiveApprove? || l.ReceiveSign? {
      NewcomersTakeNoKey(c, s, l);
    } else if l.WebDecide? || l.PromptAnswered? {
      ReplyFrame(c, s, l);
    } else {
      WorldFrame(c, s, l);
    }
  }

  lemma StepTakesKey(c: Config, s: State, l: Label, q: nat)
    requires Act(c, s, l).Some?
    requires q in Act(c, s, l).value.handlers && Act(c, s, l).value.handlers[q].SignSigning?
    ensures var h := Act(c, s, l).value.handlers[q];
      (q in s.handlers && s.handlers[q] == h) || (SpendAt(l, q) && HoldsKey(s, h))
  {
    hide Act, Builders.WellFormed, HoldsKey;
    if l.Built? || l.Estimated? { GateTakesKey(c, s, l); } else { OthersTakeNoKey(c, s, l); }
  }

  // ---- every run ----

  /** At the p-th step of the run the handler went through the gates, and this was the key in
      memory for the wallet. */
  ghost predicate GateAt(run: seq<Label>, p: nat, pid: nat, wallet: string, key: string) {
    p < |run| && SpendAt(run[p], pid) && Held(run[..p], Text.Lower(wallet), key)
  }

  ghost predicate Keyed(run: seq<Label>, pid: nat, wallet: string, key: string) {
    exists p: nat :: GateAt(run, p, pid, wallet, key)
  }

  ghost predicate SignersKeyed(run: seq<Label>, handlers: map<nat, Handler>) {
    forall q :: q in handlers && handlers[q].SignSigning? ==>
      Keyed(run, q, handlers[q].job.intent.wallet, handlers[q].key)
  }

  ghost predicate SignaturesKeyed(run: seq<Label>, signatures: seq<Signature>) {
    forall k :: 0 <= k < |signatures| ==>
      Keyed(run, signatures[k].pid, signatures[k].job.intent.wallet, signatures[k].key)
  }

  lemma KeyedStays(run: seq<Label>, l: Label, pid: nat, wallet: string, key: string)
    requires Keyed(run, pid, wallet, key)
    ensures Keyed(run + [l], pid, wallet, key)
  {
    hide Held;
    var p: nat :| GateAt(run, p, pid, wallet, key);
    assert (run + [l])[..p] == run[..p] && (run + [l])[p] == run[p];
    assert GateAt(run + [l], p, pid, wallet, key);
  }

  lemma SignersStayKeyed(c: Config, run: seq<Label>, l: Label)
    requires Exec(c, run).Some? && Act(c, Exec(c, run).value, l).Some?
    requires SignersKeyed(run, Exec(c, run).value.handlers)
    ensures SignersKeyed(run + [l], Act(c, Exec(c, run).value, l).value.handlers)
  {
    hide Exec, Act, Keyed, Held, Text.Lower, Builders.WellFormed;
    var s := Exec(c, run).value;
    var t := Act(c, s, l).value;
    forall q | q in t.handlers && t.handlers[q].SignSigning?
      ensures Keyed(run + [l], q, t.handlers[q].job.intent.wallet, t.handlers[q].key) {
      var h := t.handlers[q];
      StepTakesKey(c, s, l, q);
      if q in s.handlers && s.handlers[q] == h {
        KeyedStays(run, l, q, h.job.intent.wallet, h.key);
      } else {
        UnlockedIff(c, run, Text.Lower(h.job.intent.wallet), h.key);
        KeyedNow(run, l, q, h.job.intent.wallet, h.key);
      }
    }
  }

  lemma KeyedNow(run: seq<Label>, l: Label, pid: nat, wallet: string, key: string)
    requires SpendAt(l, pid) && Held(run, Text.Lower(wallet), key)
    ensures Keyed(run + [l], pid, wallet, key)
  {
    hide Held;
    assert (run + [l])[..|run|] == run;
    assert GateAt(run + [l], |run|, pid, wallet, key);
  }

  lemma SignaturesStayKeyed(c: Config, run: seq<Label>, s: State, l: Label)
    requires Act(c, s, l).Some? && SignersKeyed(run, s.handlers) && SignaturesKeyed(run, s.signatures)
    ensures SignaturesKeyed(run + [l], Act(c, s, l).value.signatures)
  {
    hide Act, Keyed, Builders.WellFormed;
    var t := Act(c, s, l).value;
    SignaturesOfStep(c, s, l);
    forall k | 0 <= k < |t.signatures|
      ensures Keyed(run + [l], t.signatures[k].pid, t.signatures[k].job.intent.wallet, t.signatures[k].key) {
      var sig := t.signatures[k];
      if k < |s.signatures| { assert sig == s.signatures[k]; } else { assert s.handlers[sig.pid].SignSigning?; }
      KeyedStays(run, l, sig.pid, sig.job.intent.wallet, sig.key);
    }
  }

  /** A new signature is that of a handler about to sign. */
  lemma SignaturesOfStep(c: Config, s: State, l: Label)
    requires Act(c, s, l).Some?
    ensures var t := Act(c, s, l).value;
      || t.signatures == s.signatures
      || (l.SigningReturned? && l.pid in s.handlers && s.handlers[l.pid].SignSigning? &&
          var h := s.handlers[l.pid]; t.signatures == s.signatures + [Signature(l.pid, h.job, h.extras, h.key, s.step)])
  {
    hide Act, Builders.WellFormed, PromptAdded;
    if l.SigningReturned? {
      SignerReturns(c, s, l.pid, l.ok);
      SignatureFrame(c, s, l.pid, l.ok);
      if l.ok {} else { assert s.signatures + [] == s.signatures; }
    } else if l.Built? {
      BuiltStepFrame(c, s, l);
    } else if l.Simulated? {
      SimulatedFrame(c, s, l.pid, l.riskScore, l.freshRequest);
    } else if l.PromptSettled? {
      IssueFrame(c, s, l.pid, l.freshToken);
    } else if Environment(l) {
      EnvironmentFrame(c, s, l);
    } else {
      WorkFrame(c, s, l);
    }
  }

  lemma SignerReturns(c: Config, s: State, pid: nat, ok: bool)
    requires Act(c, s, SigningReturned(pid, ok)).Some?
    ensures pid in s.handlers && s.handlers[pid].SignSigning?
  {
    hide Builders.WellFormed, Signable;
  }

  lemma {:induction false} RunIsKeyed(c: Config, run: seq<Label>)
    requires Exec(c, run).Some?
    ensures SignersKeyed(run, Exec(c, run).value.handlers) && SignaturesKeyed(run, Exec(c, run).value.signatures)
  {
    hide Act;
    if run == [] {
    } else {
      hide SignersKeyed, SignaturesKeyed;
      var before, l := run[..|run| - 1], run[|run| - 1];
      RunIsKeyed(c, before);
      SignersStayKeyed(c, before, l);
      SignaturesStayKeyed(c, before, Exec(c, before).value, l);
      assert before + [l] == run;
    }
  }

  /** In every run each signature is made with the key that had been unlocked for its intent's
      wallet, and not locked, replaced or lost, when its handler went through the gates. */
  lemma SignaturesUseTheWalletsKey(c: Config, run: seq<Label>, k: nat)
    requires Exec(c, run).Some? && k < |Exec(c, run).value.signatures|
    ensures var sig := Exec(c, run).value.signatures[k];
      exists p: nat, j: nat :: p < |run| && SpendAt(run[p], sig.pid) &&
                               UnlockedAt(run[..p], j, Text.Lower(sig.job.intent.wallet), sig.key)
  {
    hide Exec, UnlockedAt, SpendAt, Text.Lower;
    RunIsKeyed(c, run);
    var sig := Exec(c, run).value.signatures[k];
    assert Keyed(run, sig.pid, sig.job.intent.wallet, sig.key);
    var p: nat :| GateAt(run, p, sig.pid, sig.job.intent.wallet, sig.key);
    var j: nat :| UnlockedAt(run[..p], j, Text.Lower(sig.job.intent.wallet), sig.key);
  }
}
