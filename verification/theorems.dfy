/** What holds in every state the daemon can reach from an empty table, read off the invariant.
    A run is any sequence of events: requests, environment answers, process deaths. */
module Theorems {
  import opened Types
  import opened Protocol
  import opened PassSafety
  import opened System
  import opened SystemSafety

  // ---- agreement ---------------------------------------------------------------------------------

  /** A settled row that no pass is working on has both ends written from it: the key, the port,
      the comment and the address of the last apply. */
  lemma {:induction false} Agreement(cfg: Config, es: seq<Event>, k: Key)
    requires ValidLifetime(cfg.defaultLifetime)
    requires var s := Run(Init(cfg), es); k in s.w.rows && !InFlight(s, k) && Settled(s.w.rows[k]) && !Exempt(s, k)
    ensures var s := Run(Init(cfg), es); Matches(s.cfg, s.w, k)
  {
    InvRun(cfg, es);
    assert AtRest(Run(Init(cfg), es), k);
  }

  /** The node whose pass or deregistration is in progress. */
  function Actor(s: Sys): Option<Key> {
    match s.ctl
    case Idle => None
    case Busy(p, _) => Some(p.key)
    case DelServer(k) => Some(k)
    case DelClient(k) => Some(k)
    case DelRow(k) => Some(k)
  }

  /** Agreement comes into doubt in four ways only: the process dies, an error mark fails, a
      deregistration has reached the peers, or another node changes an entry it shares. */
  lemma DoubtHasACause(s: Sys, e: Event, k: Key)
    requires !Exempt(s, k) && Exempt(Step(s, e), k)
    ensures (e.Crash? && k in s.w.rows)
         || (e.Return? && InFlight(s, k) && s.ctl.pass.rc != 0 && !s.ctl.pass.marked)
         || (e.Remove? && s.ctl == DelServer(k))
         || (Actor(s).Some? && Shares(Actor(s).value, k) && !SamePeers(s.w, Step(s, e).w, k))
  {
    if k in Step(s, e).eclipsed { EclipseHasACause(s, e, k); }
  }

  lemma EclipseHasACause(s: Sys, e: Event, k: Key)
    requires k !in s.eclipsed && k in Step(s, e).eclipsed
    ensures k in s.w.rows && (e.Advance? || e.Remove?)
    ensures Actor(s).Some? && Shares(Actor(s).value, k) && !SamePeers(s.w, Step(s, e).w, k)
  {
    if e.Advance? {
      var c := Conf(s.w, s.ctl.pass);
      StepFrame(s.cfg, c, e.env);
      OnlySharersNotice(s.w, PassStep(s.cfg, c, e.env).w, c.p.key, k);
    }
  }

  /** No peer takes two rows for one. */
  predicate Separate(t: Table) {
    forall k, k' | k in t && k' in t :: !Shares(k, k')
  }

  predicate SeparateAlong(cfg: Config, es: seq<Event>) {
    forall j | 0 <= j <= |es| :: Separate(Run(Init(cfg), es[..j]).w.rows)
  }

  lemma {:induction false} NoEclipse(cfg: Config, es: seq<Event>)
    requires ValidLifetime(cfg.defaultLifetime) && SeparateAlong(cfg, es)
    ensures Run(Init(cfg), es).eclipsed == {}
  {
    if es != [] {
      var before, e := es[..|es| - 1], es[|es| - 1];
      var s := Run(Init(cfg), before);
      assert SeparateAlong(cfg, before) by {
        assert forall j | 0 <= j <= |before| :: before[..j] == es[..j];
      }
      NoEclipse(cfg, before);
      InvRun(cfg, before);
      assert Separate(s.w.rows) by {
        assert before == es[..|es| - 1];
      }
      NothingToShare(s, e);
    }
  }

  lemma NothingToShare(s: Sys, e: Event)
    requires Inv(s) && Separate(s.w.rows) && s.eclipsed == {}
    ensures Step(s, e).eclipsed == {}
  {
    forall k ensures k !in Step(s, e).eclipsed {
      if k in Step(s, e).eclipsed {
        EclipseHasACause(s, e, k);
        ActorHasARow(s);
      }
    }
  }

  lemma ActorHasARow(s: Sys)
    requires Inv(s) && Actor(s).Some?
    ensures Actor(s).value in s.w.rows
  {
  }

  /** While no peer takes two rows for one, the third exception does not exist. */
  lemma {:induction false} AgreementOfSeparateRows(cfg: Config, es: seq<Event>, k: Key)
    requires ValidLifetime(cfg.defaultLifetime) && SeparateAlong(cfg, es)
    requires var s := Run(Init(cfg), es);
             && k in s.w.rows && !InFlight(s, k) && Settled(s.w.rows[k])
             && k !in s.startup && k !in s.unmarked && k !in s.orphaned
    ensures var s := Run(Init(cfg), es); Matches(s.cfg, s.w, k)
  {
    NoEclipse(cfg, es);
    Agreement(cfg, es, k);
  }

  /** Completing a rotation, the one step that leaves the last phase, finds the row's key in
      force at both ends. */
  lemma {:induction false} CompletionAgrees(cfg: Config, es: seq<Event>, e: Event, k: Key)
    requires ValidLifetime(cfg.defaultLifetime)
    requires var s, s' := Run(Init(cfg), es), Run(Init(cfg), es + [e]);
             k in s.w.rows && k in s'.w.rows
             && s.w.rows[k].rotation == PENDING_LOCAL_RECOVERY && s'.w.rows[k].rotation == NONE
    ensures var s := Run(Init(cfg), es + [e]); Matches(s.cfg, s.w, k)
  {
    InvRun(cfg, es);
    RunStep(cfg, es, e);
    var s := Run(Init(cfg), es);
    assert RowSound(s, k);
    OnlyAdvanceChangesRotation(s, e, k);
    CompletingStep(s.cfg, Conf(s.w, s.ctl.pass), e.env, StandingOf(s, k));
  }

  lemma CompletingStep(cfg: Config, c: Conf, env: PassEnv, st: Standing)
    requires PassInv(cfg, c, st) && c.w.rows[c.p.key].rotation == PENDING_LOCAL_RECOVERY
    requires var w' := PassStep(cfg, c, env).w; c.p.key in w'.rows && w'.rows[c.p.key].rotation == NONE
    ensures Matches(cfg, PassStep(cfg, c, env).w, c.p.key)
  {
  }

  lemma RunStep(cfg: Config, es: seq<Event>, e: Event)
    ensures Run(Init(cfg), es + [e]) == Step(Run(Init(cfg), es), e)
  {
    assert (es + [e])[..|es + [e]| - 1] == es;
  }

  lemma {:induction false} OnlyAdvanceChangesRotation(s: Sys, e: Event, k: Key)
    requires Inv(s) && k in s.w.rows && k in Apply(s, e).w.rows
    requires Apply(s, e).w.rows[k].rotation != s.w.rows[k].rotation
    ensures e.Advance? && InFlight(s, k)
  {
    if e.Advance? && s.ctl.Busy? { RowsFrame(s.cfg, Conf(s.w, s.ctl.pass), e.env); }
  }

  // ---- write-ahead -------------------------------------------------------------------------------

  predicate RowHolds(t: Table, k: Key, x: string) {
    k in t && t[k].xorKey == x
  }

  predicate CommittedWithin(cfg: Config, es: seq<Event>, k: Key, x: string) {
    exists j | 0 <= j <= |es| :: RowHolds(Run(Init(cfg), es[..j]).w.rows, k, x)
  }

  lemma {:induction false} CommittedAtSomePoint(cfg: Config, es: seq<Event>, k: Key, x: string)
    requires (k, x) in Run(Init(cfg), es).committed
    ensures CommittedWithin(cfg, es, k, x)
  {
    hide Apply;
    if es != [] {
      var before := es[..|es| - 1];
      var s := Run(Init(cfg), before);
      ApplyLeavesHistory(s, es[|es| - 1]);
      if (k, x) in s.committed {
        CommittedAtSomePoint(cfg, before, k, x);
        var j :| 0 <= j <= |before| && RowHolds(Run(Init(cfg), before[..j]).w.rows, k, x);
        assert es[..j] == before[..j];
      } else {
        assert es[..|es|] == es && RowHolds(Run(Init(cfg), es).w.rows, k, x);
      }
    }
  }

  lemma ApplyLeavesHistory(s: Sys, e: Event)
    ensures Apply(s, e).committed == s.committed
  {
  }

  /** Any key a peer holds was, at a strictly earlier point of the run, the committed key of a row
      that the entry belongs to. */
  lemma {:induction false} WriteAhead(cfg: Config, es: seq<Event>, e: Event, entry: Entry, x: string)
    returns (k: Key)
    requires ValidLifetime(cfg.defaultLifetime)
    requires EntryHolds(Run(Init(cfg), es + [e]).w, entry, x)
    ensures Names(k, entry) && CommittedWithin(cfg, es, k, x)
  {
    InvRun(cfg, es);
    RunStep(cfg, es, e);
    var s := Run(Init(cfg), es);
    ApplySendsCommittedKeys(s, e);
    assert CommittedFor(s.committed, entry, x);
    var p :| p in s.committed && Names(p.0, entry) && p.1 == x;
    k := p.0;
    CommittedAtSomePoint(cfg, es, k, x);
  }

  /** A row waiting for local recovery has its key on the server, unless a deregistration that
      left the row behind removed the entry, or another node that shares it changed it. */
  lemma {:induction false} RecoverySound(cfg: Config, es: seq<Event>, k: Key)
    requires ValidLifetime(cfg.defaultLifetime)
    requires var s := Run(Init(cfg), es); k in s.w.rows && s.w.rows[k].rotation == PENDING_LOCAL_RECOVERY
    ensures var s, id := Run(Init(cfg), es), ServerOf(k);
            k in s.eclipsed || if id in s.w.server then s.w.server[id].key == s.w.rows[k].xorKey else k in s.orphaned
  {
    InvRun(cfg, es);
    assert RowSound(Run(Init(cfg), es), k);
  }

  // ---- rows ----------------------------------------------------------------------------------------

  /** Every reachable row is well formed; its application time is unset or plausible, and its
      lifetime off or within its limits. */
  lemma {:induction false} RowsWellFormed(cfg: Config, es: seq<Event>, k: Key)
    requires ValidLifetime(cfg.defaultLifetime) && k in Run(Init(cfg), es).w.rows
    ensures RowOk(Run(Init(cfg), es).w.rows[k])
  {
    InvRun(cfg, es);
    assert RowSound(Run(Init(cfg), es), k);
  }

  /** How one event may change a surviving row. */
  predicate RowEvolves(cfg: Config, r: Row, r': Row, k: Key, e: Event) {
    var registered := e.Register? && e.key == k;
    && PhaseStep(r.rotation, r'.rotation)
    && (r'.xorKey != r.xorKey ==>
          r.rotation == NONE
          && ((r'.rotation == PENDING_REMOTE && cfg.enableXor && r.xorKey != "")
              || (registered && e.req.xorKey == Some(r'.xorKey))))
    && (r'.lastApplied != r.lastApplied ==>
          (r.rotation == PENDING_LOCAL_RECOVERY && r'.rotation == NONE)
          || (r.rotation == NONE && (r.lastApplied == 0 || !cfg.enableXor || r.xorKey == "")))
    && (!registered ==> r'.clientPort == r.clientPort && r'.settings == r.settings && r'.lifetime == r.lifetime)
  }

  /** Along every run the rotation phases of a surviving row advance in the order 0, 1, 2, 0; its
      key changes only as a rotation starts or, outside one, at an operator's request; and its
      application time, once set on a rotated key, moves only as a rotation completes. */
  lemma {:induction false} RowHistory(cfg: Config, es: seq<Event>, e: Event, k: Key)
    requires ValidLifetime(cfg.defaultLifetime)
    requires k in Run(Init(cfg), es).w.rows && k in Run(Init(cfg), es + [e]).w.rows
    ensures var s, s' := Run(Init(cfg), es), Run(Init(cfg), es + [e]);
            RowEvolves(s.cfg, s.w.rows[k], s'.w.rows[k], k, e)
  {
    InvRun(cfg, es);
    RunStep(cfg, es, e);
    var s := Run(Init(cfg), es);
    if e.Advance? {
      if s.ctl.Busy? { AdvanceEvolves(s, e, k); }
    } else if e.Register? && e.key == k {
      if s.ctl.Idle? { RegisterEvolves(s, e); }
    } else {
      OtherwiseUnchanged(s, e, k);
    }
  }

  lemma {:induction false} AdvanceEvolves(s: Sys, e: Event, k: Key)
    requires Inv(s) && e.Advance? && s.ctl.Busy? && k in s.w.rows && k in Step(s, e).w.rows
    ensures RowEvolves(s.cfg, s.w.rows[k], Step(s, e).w.rows[k], k, e)
  {
    var c := Conf(s.w, s.ctl.pass);
    if k == c.p.key { StepMovesForward(s.cfg, c, e.env, StandingOf(s, k)); } else { RowsFrame(s.cfg, c, e.env); }
  }

  lemma RegisterEvolves(s: Sys, e: Event)
    requires Inv(s) && e.Register? && s.ctl.Idle? && e.key in s.w.rows && e.key in Step(s, e).w.rows
    ensures RowEvolves(s.cfg, s.w.rows[e.key], Step(s, e).w.rows[e.key], e.key, e)
  {
  }

  lemma OtherwiseUnchanged(s: Sys, e: Event, k: Key)
    requires !e.Advance? && !(e.Register? && e.key == k) && k in s.w.rows && k in Step(s, e).w.rows
    ensures Step(s, e).w.rows[k] == s.w.rows[k]
  {
  }

  // ---- passes ----------------------------------------------------------------------------------------

  /** At every point of a pass, its return included, the node in memory carries the committed
      key, pending key, phase, port and settings. */
  lemma {:induction false} MemoryCoherent(cfg: Config, es: seq<Event>)
    requires ValidLifetime(cfg.defaultLifetime) && Run(Init(cfg), es).ctl.Busy?
    ensures var s := Run(Init(cfg), es); var p := s.ctl.pass;
            p.key in s.w.rows && Coherent(p.node, s.w.rows[p.key])
  {
    InvRun(cfg, es);
  }

  predicate Sending(p: Pass) {
    p.at == SendPlaceholder || p.at == SendDetected
  }

  /** No pass sends a rotated key that has outlived its lifetime at the pass's clock reading. */
  lemma {:induction false} NoStaleKeySent(cfg: Config, es: seq<Event>)
    requires ValidLifetime(cfg.defaultLifetime)
    requires var s := Run(Init(cfg), es); s.ctl.Busy? && Sending(s.ctl.pass)
    ensures Run(Init(cfg), es).ctl.pass.key in Run(Init(cfg), es).w.rows
    ensures var s := Run(Init(cfg), es);
            var p, r := s.ctl.pass, s.w.rows[s.ctl.pass.key];
            (r.rotation == NONE && s.cfg.enableXor && r.xorKey != "" && r.lifetime != 0 && r.lastApplied != 0
             && p.now >= MIN_SANE_TIME)
            ==> p.now - r.lastApplied < r.lifetime
  {
    InvRun(cfg, es);
  }

  /** A subprocess killed at its deadline is the last one its pass runs: wherever another is
      about to run, none has timed out. */
  lemma {:induction false} TimeoutEndsPass(cfg: Config, es: seq<Event>)
    requires ValidLifetime(cfg.defaultLifetime) && Run(Init(cfg), es).ctl.Busy?
    ensures var p := Run(Init(cfg), es).ctl.pass;
            OnlyLastTimedOut(p.calls)
            && (Sending(p) || p.at == ClientDel || p.at == ClientAdd ==> NoneTimedOut(p.calls))
  {
    InvRun(cfg, es);
  }

  /** A register answered "ok" leaves a settled row with both ends written from it. */
  lemma {:induction false} RegisterTruth(cfg: Config, es: seq<Event>)
    requires ValidLifetime(cfg.defaultLifetime)
    requires var s := Run(Init(cfg), es);
             s.ctl.Busy? && s.ctl.job == Replying(true) && s.ctl.pass.at == Returned && s.ctl.pass.rc == 0
    ensures var s := Run(Init(cfg), es); var k := s.ctl.pass.key;
            k in s.w.rows && Settled(s.w.rows[k]) && Matches(s.cfg, s.w, k)
  {
    InvRun(cfg, es);
  }

  /** Any pass that returns 0 leaves the detected address in the row, and either applied the row or
      skipped a node that owes nothing, has no rotation open and is not marked as failed. */
  lemma {:induction false} ReturnTruth(cfg: Config, es: seq<Event>)
    requires ValidLifetime(cfg.defaultLifetime)
    requires var s := Run(Init(cfg), es); s.ctl.Busy? && s.ctl.pass.at == Returned && s.ctl.pass.rc == 0
    ensures Run(Init(cfg), es).ctl.pass.key in Run(Init(cfg), es).w.rows
    ensures var s := Run(Init(cfg), es); var p, r := s.ctl.pass, s.w.rows[s.ctl.pass.key];
            && SameText(r.currentIp, p.ip)
            && if p.applied then Settled(r) && Matches(s.cfg, s.w, p.key)
               else !p.force && r.rotation == NONE && !Marked(r) && !Owes(s, p.key) && p.calls == []
  {
    InvRun(cfg, es);
  }

  /** A pass that fails and commits its error mark leaves the status that the next pass retries on,
      and the address it detected, or failing that the one the node had. */
  lemma {:induction false} FailureTruth(cfg: Config, es: seq<Event>)
    requires ValidLifetime(cfg.defaultLifetime)
    requires var s := Run(Init(cfg), es);
             s.ctl.Busy? && s.ctl.pass.at == Returned && s.ctl.pass.rc != 0 && s.ctl.pass.marked
    ensures Run(Init(cfg), es).ctl.pass.key in Run(Init(cfg), es).w.rows
    ensures var s := Run(Init(cfg), es); var p, r := s.ctl.pass, s.w.rows[s.ctl.pass.key];
            r.status == ERROR && r.currentIp == if p.ip != "" then p.ip else p.node.currentIp
  {
    InvRun(cfg, es);
  }

  /** A pass ends at detection without an apply exactly when it is not forced, the row has the
      detected address and no mark. */
  lemma SkipsExactlyWhen(cfg: Config, c: Conf, env: PassEnv)
    requires c.p.at == Detect
    ensures PassStep(cfg, c, env).p.at == Returned
       <==> env.detection.Detected? && !c.p.force && SameText(c.p.node.currentIp, env.detection.ip) && !Marked(c.p.node)
  {
  }

  /** A pass that applied its node ends every doubt about it. */
  lemma ApplyEndsDoubt(s: Sys)
    requires s.ctl.Busy? && s.ctl.pass.at == Returned && s.ctl.pass.rc == 0 && s.ctl.pass.applied
    ensures !Exempt(Step(s, Return), s.ctl.pass.key) && s.ctl.pass.key !in Step(s, Return).owed
  {
  }

  // ---- owed work ---------------------------------------------------------------------------------------

  /** Deciding to apply creates the debt. */
  lemma DecisionIsOwed(s: Sys, e: Event)
    requires s.ctl.Busy? && s.ctl.pass.at == Detect && e.Advance?
    requires e.env.detection.Detected? && e.env.detection.ip != "" && NeedApply(s.ctl.pass, e.env.detection.ip)
    ensures s.ctl.pass.key in Step(s, e).owed
  {
  }

  /** A pass that decided to apply and failed leaves a node that owes, if its error mark committed. */
  lemma FailureIsOwed(s: Sys)
    requires s.ctl.Busy? && s.ctl.pass.at == Returned && s.ctl.pass.rc != 0 && s.ctl.pass.marked
    requires s.ctl.pass.key in s.owed
    ensures Owes(Step(s, Return), s.ctl.pass.key)
  {
  }

  /** What ends the obligation: the apply succeeded, the row is gone, or the daemon lost track of
      the node, because it died or because the error mark failed. */
  predicate DebtEnds(s: Sys, e: Event, k: Key) {
    || (e.Return? && InFlight(s, k) && s.ctl.pass.rc == 0 && s.ctl.pass.applied)
    || (e.Remove? && s.ctl == DelRow(k) && e.deleteOk)
    || (e.Return? && InFlight(s, k) && s.ctl.pass.rc != 0 && !s.ctl.pass.marked)
    || e.Crash?
  }

  /** Nothing else does. */
  lemma DebtIsKept(s: Sys, e: Event, k: Key)
    requires Owes(s, k) && !DebtEnds(s, e, k)
    ensures Owes(Step(s, e), k)
  {
  }

  /** A pass applies whatever address it detects exactly when it is forced or finds the node marked. */
  lemma AppliedWhatever(p: Pass)
    ensures (forall ip :: NeedApply(p, ip)) <==> p.force || Marked(p.node)
  {
    if !p.force && !Marked(p.node) {
      assert !NeedApply(p, p.node.currentIp);
    }
  }

  ghost predicate NothingEnds(cfg: Config, es: seq<Event>, more: seq<Event>, k: Key) {
    forall j | 0 <= j < |more| :: !DebtEnds(Run(Init(cfg), es + more[..j]), more[j], k)
  }

  lemma {:induction false} OwesThroughout(cfg: Config, es: seq<Event>, more: seq<Event>, k: Key)
    requires Owes(Run(Init(cfg), es), k) && NothingEnds(cfg, es, more, k)
    ensures Owes(Run(Init(cfg), es + more), k)
  {
    hide Owes, DebtEnds, Step;
    if more == [] {
      assert es + more == es;
    } else {
      var n := |more| - 1;
      var before := more[..n];
      assert NothingEnds(cfg, es, before, k) by {
        assert forall j | 0 <= j < n :: before[..j] == more[..j];
      }
      OwesThroughout(cfg, es, before, k);
      assert es + before + [more[n]] == es + more;
      RunStep(cfg, es + before, more[n]);
      DebtIsKept(Run(Init(cfg), es + before), more[n], k);
    }
  }

  /** A pass that reaches detection on a node that owes applies it, whatever the address. */
  lemma {:induction false} OwedWorkIsResumed(cfg: Config, es: seq<Event>)
    requires ValidLifetime(cfg.defaultLifetime)
    requires var s := Run(Init(cfg), es); s.ctl.Busy? && s.ctl.pass.at == Detect && Owes(s, s.ctl.pass.key)
    ensures forall ip :: NeedApply(Run(Init(cfg), es).ctl.pass, ip)
  {
    InvRun(cfg, es);
    AppliedWhatever(Run(Init(cfg), es).ctl.pass);
  }

  /** A node that owes keeps owing, through any run in which nothing ends the obligation, and every
      pass that reaches detection on the way applies it, whatever the address. */
  lemma {:induction false} OwedUntilApplied(cfg: Config, es: seq<Event>, more: seq<Event>, k: Key)
    requires ValidLifetime(cfg.defaultLifetime)
    requires Owes(Run(Init(cfg), es), k) && NothingEnds(cfg, es, more, k)
    ensures var s := Run(Init(cfg), es + more);
            Owes(s, k) && (InFlight(s, k) && s.ctl.pass.at == Detect ==> forall ip :: NeedApply(s.ctl.pass, ip))
  {
    OwesThroughout(cfg, es, more, k);
    var s := Run(Init(cfg), es + more);
    if InFlight(s, k) && s.ctl.pass.at == Detect {
      OwedWorkIsResumed(cfg, es + more);
    }
  }
}
