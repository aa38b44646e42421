/** Runs that reach the exceptions the theorems make, so that none of them can be dropped. */
module Witnesses {
  import opened Types
  import Sql
  import opened Protocol
  import opened PassSafety
  import opened System
  import opened Convergence
  import opened Daemon
  import opened Theorems

  function PlainRequest(port: int): Request {
    Request(port, "", None, None, None, None, None, None)
  }

  predicate Registrable(k: Key, port: int) {
    SafeId(k.uid) && ValidPort(k.port) && ValidPort(port)
  }

  predicate Undoubted(s: Sys) {
    s.startup == {} && s.unmarked == {} && s.orphaned == {}
  }

  /** What registering a new node leads to when its environment cooperates. */
  predicate Registered(s: Sys, s': Sys, k: Key, port: int, ip: string) {
    && s'.ctl == Idle && s'.cfg == s.cfg && Undoubted(s')
    && k in s'.w.rows && Settled(s'.w.rows[k]) && Matches(s'.cfg, s'.w, k)
    && s'.w.rows[k].clientPort == port && s'.w.rows[k].currentIp == ip && s'.w.rows[k].lifetime == s.cfg.defaultLifetime
    && s'.w.rows.Keys == s.w.rows.Keys + {k} && forall k' | k' in s.w.rows :: s'.w.rows[k'] == s.w.rows[k']
  }

  lemma Registers(cfg: Config, es: seq<Event>, k: Key, port: int, now: int, key: FreshKey, env: PassEnv)
    returns (es': seq<Event>)
    requires Registrable(k, port) && Cooperates(env)
    requires var s := Run(Init(cfg), es);
             s.ctl == Idle && Undoubted(s) && k !in s.w.rows && !Sql.PortTaken(s.w.rows, k, port)
    ensures es <= es' && Registered(Run(Init(cfg), es), Run(Init(cfg), es'), k, port, env.detection.ip)
  {
    hide RunPass, Run, Matches;
    var s := Run(Init(cfg), es);
    var node := NewNode(s.cfg, now, if s.cfg.enableXor then key else "").(clientPort := port);
    es' := DriveRegister(cfg, es, k, PlainRequest(port), now, Some(key), node);
    var s1 := Run(Init(cfg), es');
    es' := DrivePass(cfg, es', env);
    Converges(s.cfg, s1.w, k, node, true, env);
    PassFrame(s.cfg, Conf(s1.w, StartPass(k, node, true)), env);
    ReturnMovesOn(Run(Init(cfg), es'));
    es' := Extend(cfg, es', Return);
  }

  /** Whenever some peer would take two nodes for one, registering both leaves the first in
      disagreement: settled, in no pass, under no other doubt, and not what that peer holds. */
  lemma SharingBreaksAgreement(cfg: Config, k1: Key, k2: Key, port1: int, port2: int, now: int, key: FreshKey,
                               env: PassEnv)
    returns (es: seq<Event>)
    requires Shares(k1, k2) && Registrable(k1, port1) && Registrable(k2, port2) && port1 != port2 && Cooperates(env)
    ensures var s := Run(Init(cfg), es);
            && k1 in s.w.rows && s.ctl == Idle && Undoubted(s) && Settled(s.w.rows[k1]) && !Matches(s.cfg, s.w, k1)
  {
    es := Registers(cfg, [], k1, port1, now, key, env);
    var s1 := Run(Init(cfg), es);
    assert s1.w.rows.Keys == {k1};
    es := Registers(cfg, es, k2, port2, now, key, env);
    OneEntryOneNode(Run(Init(cfg), es).cfg, Run(Init(cfg), es).w, k1, k2);
  }

  /** An entry is written from one row at a time. */
  lemma OneEntryOneNode(cfg: Config, w: World, k1: Key, k2: Key)
    requires Shares(k1, k2) && k1 in w.rows && k2 in w.rows && w.rows[k1].clientPort != w.rows[k2].clientPort
    ensures !(Matches(cfg, w, k1) && Matches(cfg, w, k2))
  {
  }

  /** An unforced refresh of a settled node without a lifetime gets to detection unforced. */
  lemma ReachesDetection(cfg: Config, es: seq<Event>, k: Key, now: int, env: PassEnv) returns (es': seq<Event>)
    requires var s := Run(Init(cfg), es);
             s.ctl == Idle && k in s.w.rows && Settled(s.w.rows[k]) && s.w.rows[k].lifetime == 0
    ensures var s, s' := Run(Init(cfg), es), Run(Init(cfg), es');
            && s'.w == s.w && s'.cfg == s.cfg && s.owed <= s'.owed && s.startup <= s'.startup
            && s'.ctl.Busy? && s'.ctl.pass.key == k && s'.ctl.pass.at == Detect && !s'.ctl.pass.force
            && s'.ctl.pass.node == Sql.Load(s.w.rows[k], now)
  {
    es' := DriveRefresh(cfg, es, k, false, now);
    AdvanceIsPassStep(Run(Init(cfg), es'), env);
    es' := Extend(cfg, es', Advance(env));
    AdvanceIsPassStep(Run(Init(cfg), es'), env);
    es' := Extend(cfg, es', Advance(env));
    AdvanceIsPassStep(Run(Init(cfg), es'), env);
    es' := Extend(cfg, es', Advance(env));
  }

  /** A crash forgets a debt until the startup pass: a pass decides to apply a new address and dies;
      if the address is back to the old one when the next pass, unforced, detects it, that pass skips. */
  lemma CrashForgetsDebt(cfg: Config, k: Key, port: int, now: int, key: FreshKey, env: PassEnv, moved: PassEnv)
    returns (es: seq<Event>)
    requires Registrable(k, port) && cfg.defaultLifetime == 0 && Cooperates(env)
    requires moved.detection.Detected? && moved.detection.ip != "" && !SameText(env.detection.ip, moved.detection.ip)
    ensures var s := Run(Init(cfg), es);
            && s.ctl.Busy? && s.ctl.pass.key == k && s.ctl.pass.at == Detect && k in s.owed && k in s.startup
            && !NeedApply(s.ctl.pass, env.detection.ip)
  {
    assert Run(Init(cfg), []) == Init(cfg);
    hide Matches, Run, Step, NeedApply;
    es := Registers(cfg, [], k, port, now, key, env);
    es := DecidesAndDies(cfg, es, k, now, moved);
    es := ReachesDetection(cfg, es, k, now, env);
    SettledIsSkipped(Run(Init(cfg), es).ctl.pass, env.detection.ip);
  }

  lemma SettledIsSkipped(p: Pass, ip: string)
    requires !p.force && p.node.currentIp == ip && p.node.status == ACTIVE
    ensures !NeedApply(p, ip)
  {
  }

  lemma DecidesAndDies(cfg: Config, es: seq<Event>, k: Key, now: int, env: PassEnv) returns (es': seq<Event>)
    requires var s := Run(Init(cfg), es);
             && s.ctl == Idle && k in s.w.rows && Settled(s.w.rows[k]) && s.w.rows[k].lifetime == 0
             && env.detection.Detected? && env.detection.ip != ""
             && !SameText(s.w.rows[k].currentIp, env.detection.ip) && ValidLifetime(s.cfg.defaultLifetime)
    ensures var s, s' := Run(Init(cfg), es), Run(Init(cfg), es');
            s'.ctl == Idle && s'.w.rows == s.w.rows && k in s'.owed && k in s'.startup
  {
    hide Run;
    es' := ReachesDetection(cfg, es, k, now, env);
    var s1 := Run(Init(cfg), es');
    DecisionIsOwed(s1, Advance(env));
    es' := Extend(cfg, es', Advance(env));
    var s2 := Run(Init(cfg), es');
    es' := Extend(cfg, es', Crash({}, s1.cfg));
    Dies(s2, s1.cfg, k);
  }

  lemma Dies(s: Sys, cfg: Config, k: Key)
    requires k in s.w.rows && k in s.owed && ValidLifetime(cfg.defaultLifetime)
    ensures var s' := Step(s, Crash({}, cfg));
            s'.ctl == Idle && s'.w.rows == s.w.rows && k in s'.owed && k in s'.startup
  {
  }
}
