/** Invariants of every run of the daemon, crashes and lossy peers included. */
module SystemSafety {
  import opened Types
  import Sql
  import opened Protocol
  import opened PassSafety
  import opened System

  predicate Exempt(s: Sys, k: Key) {
    k in s.startup || k in s.unmarked || k in s.orphaned || k in s.eclipsed
  }

  predicate Owes(s: Sys, k: Key) {
    k in s.owed && k !in s.unmarked && k !in s.startup
  }

  function StandingOf(s: Sys, k: Key): Standing {
    Standing(Exempt(s, k), k in s.orphaned, k in s.eclipsed, Owes(s, k))
  }

  predicate InFlight(s: Sys, k: Key) {
    s.ctl.Busy? && s.ctl.pass.key == k
  }

  predicate RowSound(s: Sys, k: Key)
    requires k in s.w.rows
  {
    RowOk(s.w.rows[k]) && RemoteSound(s.w, k, k in s.orphaned, k in s.eclipsed)
  }

  /** A node no pass is working on: it agrees with both peers when settled, and if it owes an
      apply, the row itself says so. */
  predicate AtRest(s: Sys, k: Key)
    requires k in s.w.rows
  {
    var r := s.w.rows[k];
    && (Exempt(s, k) || !Settled(r) || Matches(s.cfg, s.w, k))
    && (Owes(s, k) ==> Marked(r) || r.rotation != NONE)
  }

  predicate Fresh(q: Queued, t: Table) {
    q.key in t && Coherent(q.node, t[q.key]) && LoadedFrom(q.node, t[q.key]) && q.node.status == t[q.key].status
    && q.node.currentIp == t[q.key].currentIp
  }

  predicate QueueOk(queue: seq<Queued>, t: Table) {
    && (forall i | 0 <= i < |queue| :: Fresh(queue[i], t))
    && (forall i, j | 0 <= i < j < |queue| :: queue[i].key != queue[j].key)
  }

  predicate ControlOk(s: Sys) {
    match s.ctl
    case Idle => true
    case Busy(p, job) =>
      && PassInv(s.cfg, Conf(s.w, p), StandingOf(s, p.key))
      && (match job
          case Replying(register) => register ==> p.force
          case Listing(queue, _, _) => QueueOk(queue, s.w.rows) && forall i | 0 <= i < |queue| :: queue[i].key != p.key)
    case DelServer(k) => k in s.w.rows
    case DelClient(k) => k in s.w.rows && k in s.orphaned
    case DelRow(k) => k in s.w.rows && k in s.orphaned
  }

  predicate NodesOk(s: Sys) {
    forall k | k in s.w.rows :: RowSound(s, k) && (!InFlight(s, k) ==> AtRest(s, k))
  }

  /** An entry at a peer, by the name the peer has for it. */
  datatype Entry = AtServer(server: ServerId) | AtKernel(client: ClientId)

  predicate EntryHolds(w: World, e: Entry, x: string) {
    match e
    case AtServer(id) => id in w.server && w.server[id].key == x
    case AtKernel(id) => id in w.kernel && w.kernel[id].key == x
  }

  predicate Names(k: Key, e: Entry) {
    match e
    case AtServer(id) => ServerOf(k) == id
    case AtKernel(id) => ClientOf(k) == id
  }

  predicate CommittedFor(committed: set<(Key, string)>, e: Entry, x: string) {
    exists p <- committed :: Names(p.0, e) && p.1 == x
  }

  /** Every key a peer holds was committed to a row that the entry belongs to. */
  ghost predicate PeersCommitted(w: World, committed: set<(Key, string)>) {
    forall e, x | EntryHolds(w, e, x) :: CommittedFor(committed, e, x)
  }

  ghost predicate HistoryOk(s: Sys) {
    RowKeys(s.w.rows) <= s.committed && PeersCommitted(s.w, s.committed)
  }

  ghost predicate Inv(s: Sys) {
    ValidLifetime(s.cfg.defaultLifetime) && NodesOk(s) && ControlOk(s) && HistoryOk(s)
  }

  // ---- the write-ahead half --------------------------------------------------------------------

  /** A pass step sends no key but the committed one. */
  lemma StepSendsCommittedKey(cfg: Config, c: Conf, env: PassEnv, st: Standing, e: Entry, x: string)
    requires PassInv(cfg, c, st) && EntryHolds(PassStep(cfg, c, env).w, e, x)
    ensures EntryHolds(c.w, e, x) || (Names(c.p.key, e) && x == c.w.rows[c.p.key].xorKey)
  {
    match e
    case AtServer(id) =>
      ServerFrame(cfg, c, env);
      if id == ServerOf(c.p.key) { StepServerKey(cfg, c, env, st); }
    case AtKernel(id) =>
      KernelFrame(cfg, c, env);
      if id == ClientOf(c.p.key) { StepKernelKey(cfg, c, env, st); }
  }

  lemma StepServerKey(cfg: Config, c: Conf, env: PassEnv, st: Standing)
    requires PassInv(cfg, c, st)
    ensures var m, m', id := c.w.server, PassStep(cfg, c, env).w.server, ServerOf(c.p.key);
            id in m' ==> m'[id].key == c.w.rows[c.p.key].xorKey || (id in m && m'[id] == m[id])
  {
  }

  lemma StepKernelKey(cfg: Config, c: Conf, env: PassEnv, st: Standing)
    requires PassInv(cfg, c, st)
    ensures var m, m', id := c.w.kernel, PassStep(cfg, c, env).w.kernel, ClientOf(c.p.key);
            id in m' ==> m'[id].key == c.w.rows[c.p.key].xorKey || (id in m && m'[id] == m[id])
  {
  }

  lemma OnlyAdvanceSends(s: Sys, e: Event, entry: Entry, x: string)
    requires !(e.Advance? && s.ctl.Busy?) && EntryHolds(Apply(s, e).w, entry, x)
    ensures EntryHolds(s.w, entry, x)
  {
  }

  lemma {:induction false} ApplySendsCommittedKeys(s: Sys, e: Event)
    requires Inv(s)
    ensures PeersCommitted(Apply(s, e).w, s.committed)
  {
    forall entry, x | EntryHolds(Apply(s, e).w, entry, x) ensures CommittedFor(s.committed, entry, x) {
      if e.Advance? && s.ctl.Busy? {
        var k := s.ctl.pass.key;
        StepSendsCommittedKey(s.cfg, Conf(s.w, s.ctl.pass), e.env, StandingOf(s, k), entry, x);
        assert (k, s.w.rows[k].xorKey) in RowKeys(s.w.rows);
      } else {
        OnlyAdvanceSends(s, e, entry, x);
      }
    }
  }

  // ---- every event keeps the nodes and the control -----------------------------------------------

  predicate SameAt(w: World, w': World, k: Key) {
    k in w.rows && k in w'.rows && w'.rows[k] == w.rows[k] && SamePeers(w, w', k)
  }

  lemma UntouchedKeeps(s: Sys, s': Sys, k: Key)
    requires SameAt(s.w, s'.w, k) && s'.cfg == s.cfg && StandingOf(s', k) == StandingOf(s, k) && RowSound(s, k)
    ensures RowSound(s', k) && (AtRest(s, k) ==> AtRest(s', k))
  {
  }

  /** Another node at rest stays sound: its entries are as they were, or it is now eclipsed. */
  lemma OtherKeeps(s: Sys, s': Sys, k: Key, actor: Key)
    requires k in s.w.rows && k in s'.w.rows && s'.w.rows[k] == s.w.rows[k] && k != actor
    requires s'.eclipsed == s.eclipsed + Eclipsed(s.w, s'.w, actor)
    requires s'.startup == s.startup && s'.unmarked == s.unmarked && (Owes(s', k) ==> Owes(s, k))
    requires s'.cfg == s.cfg && (k in s'.orphaned <==> k in s.orphaned)
    requires RowSound(s, k) && AtRest(s, k)
    ensures RowSound(s', k) && AtRest(s', k)
  {
    if k !in s'.eclipsed { assert SamePeers(s.w, s'.w, k); }
  }

  lemma Restand(cfg: Config, c: Conf, st: Standing, owes: bool)
    requires PassInv(cfg, c, st) && (owes == st.owes || c.p.at == SendPlaceholder || c.p.at == SendDetected)
    ensures PassInv(cfg, c, st.(owes := owes))
  {
  }

  /** A step confined to the node in flight keeps every other node at rest. */
  lemma ConfinedKeeps(s: Sys, c: Conf, s': Sys)
    requires Inv(s) && s.ctl.Busy? && c.p.key == s.ctl.pass.key
    requires OnlyAt(s.w, c.w, c.p.key) && PassInv(s.cfg, c, StandingOf(s, c.p.key))
    requires c.p.force || !s.ctl.pass.force
    requires s' == s.(w := c.w, ctl := s.ctl.(pass := c.p), eclipsed := s.eclipsed + Eclipsed(s.w, c.w, c.p.key),
                      owed := if c.p.at == SendPlaceholder || c.p.at == SendDetected
                              then s.owed + {c.p.key} else s.owed)
    ensures NodesOk(s') && ControlOk(s')
  {
    Restand(s.cfg, c, StandingOf(s, c.p.key), Owes(s', c.p.key));
    assert StandingOf(s', c.p.key) == StandingOf(s, c.p.key).(owes := Owes(s', c.p.key));
    forall k | k in s'.w.rows ensures RowSound(s', k) && (!InFlight(s', k) ==> AtRest(s', k)) {
      if k != c.p.key {
        assert RowSound(s, k) && AtRest(s, k);
        OtherKeeps(s, s', k, c.p.key);
      }
    }
  }

  lemma {:induction false} AdvanceKeeps(s: Sys, env: PassEnv)
    requires Inv(s) && s.ctl.Busy?
    ensures var s' := AdvanceStep(s, env); NodesOk(s') && ControlOk(s')
  {
    var c := Conf(s.w, s.ctl.pass);
    StepKeeps(s.cfg, c, env, StandingOf(s, c.p.key));
    StepFrame(s.cfg, c, env);
    ConfinedKeeps(s, PassStep(s.cfg, c, env), AdvanceStep(s, env));
  }

  lemma StartKeeps(s: Sys, q: Queued, force: bool)
    requires q.key in s.w.rows && RowSound(s, q.key) && AtRest(s, q.key) && Fresh(q, s.w.rows)
    ensures PassInv(s.cfg, Conf(s.w, StartPass(q.key, q.node, force)), StandingOf(s, q.key))
  {
  }

  lemma SettleKeeps(s: Sys)
    requires Inv(s) && s.ctl.Busy? && s.ctl.pass.at == Returned
    ensures var s' := SettleHistory(s, s.ctl.pass);
            forall k | k in s.w.rows :: RowSound(s', k) && AtRest(s', k)
  {
    var p, s' := s.ctl.pass, SettleHistory(s, s.ctl.pass);
    forall k | k in s.w.rows ensures RowSound(s', k) && AtRest(s', k) {
      assert RowSound(s, k);
      if k != p.key { assert AtRest(s, k); }
    }
  }

  lemma {:induction false} ReturnKeeps(s: Sys)
    requires Inv(s) && s.ctl.Busy? && s.ctl.pass.at == Returned
    ensures var s' := ReturnStep(s); NodesOk(s') && ControlOk(s')
  {
    hide RowSound, AtRest;
    SettleKeeps(s);
    var s1, s' := SettleHistory(s, s.ctl.pass), ReturnStep(s);
    match s.ctl.job
    case Replying(_) =>
      forall k | k in s'.w.rows ensures RowSound(s', k) && AtRest(s', k) {
        assert RowSound(s1, k) && AtRest(s1, k);
        UntouchedKeeps(s1, s', k);
      }
    case Listing(queue, force, failed) =>
      NextKeeps(s1, queue, force, if s.ctl.pass.rc != 0 then failed + 1 else failed);
  }

  lemma NextKeeps(s: Sys, queue: seq<Queued>, force: bool, failed: nat)
    requires QueueOk(queue, s.w.rows) && forall k | k in s.w.rows :: RowSound(s, k) && AtRest(s, k)
    ensures var s' := s.(ctl := NextOf(s, queue, force, failed)); NodesOk(s') && ControlOk(s')
  {
    var s' := s.(ctl := NextOf(s, queue, force, failed));
    forall k | k in s.w.rows ensures RowSound(s', k) && AtRest(s', k) {
      assert RowSound(s, k) && AtRest(s, k);
    }
    if queue != [] {
      assert Fresh(queue[0], s.w.rows);
      StartKeeps(s', queue[0], force);
    }
  }

  lemma RegisterKeeps(s: Sys, k: Key, req: Request, now: int, minted: Option<FreshKey>, upsertOk: bool)
    requires Inv(s) && s.ctl.Idle?
    ensures var s' := RegisterStep(s, k, req, now, minted, upsertOk); NodesOk(s') && ControlOk(s')
  {
    var s' := RegisterStep(s, k, req, now, minted, upsertOk);
    forall k' | k' in s'.w.rows ensures RowSound(s', k') && (!InFlight(s', k') ==> AtRest(s', k')) {
      if k' != k || s' == s {
        UntouchedKeeps(s, s', k');
      } else if k in s.w.rows {
        assert RowSound(s, k) && AtRest(s, k);
      }
    }
  }

  lemma DeleteKeeps(s: Sys, k: Key)
    requires Inv(s) && s.ctl == DelRow(k)
    ensures var s' := RemoveStep(s, Acked, true); NodesOk(s') && ControlOk(s')
  {
    var s' := RemoveStep(s, Acked, true);
    forall k' | k' in s'.w.rows ensures RowSound(s', k') && AtRest(s', k') {
      assert RowSound(s, k') && AtRest(s, k');
      UntouchedKeeps(s, s', k');
    }
  }

  lemma DropPeerKeeps(s: Sys, call: Call, deleteOk: bool)
    requires Inv(s) && (s.ctl.DelServer? || s.ctl.DelClient?)
    ensures var s' := RemoveStep(s, call, deleteOk); NodesOk(s') && ControlOk(s')
  {
    var s' := RemoveStep(s, call, deleteOk);
    forall k | k in s'.w.rows ensures RowSound(s', k) && AtRest(s', k) {
      assert RowSound(s, k) && AtRest(s, k);
      if k != s.ctl.key { OtherKeeps(s, s', k, s.ctl.key); }
    }
  }

  lemma RemoveKeeps(s: Sys, call: Call, deleteOk: bool)
    requires Inv(s)
    ensures var s' := RemoveStep(s, call, deleteOk); NodesOk(s') && ControlOk(s')
  {
    match s.ctl
    case DelRow(k) =>
      if deleteOk {
        DeleteKeeps(s, k);
      } else {
        forall k' | k' in s.w.rows ensures RowSound(s, k') && AtRest(s, k') {}
        forall k' | k' in s.w.rows ensures var s' := s.(ctl := Idle); RowSound(s', k') && AtRest(s', k') {
          UntouchedKeeps(s, s.(ctl := Idle), k');
        }
      }
    case DelServer(_) => DropPeerKeeps(s, call, deleteOk);
    case DelClient(_) => DropPeerKeeps(s, call, deleteOk);
    case _ =>
  }

  lemma CrashKeeps(s: Sys, lost: set<ClientId>, cfg: Config)
    requires Inv(s)
    ensures var s' := Apply(s, Crash(lost, cfg)); NodesOk(s') && ControlOk(s')
  {
    var s' := Apply(s, Crash(lost, cfg));
    forall k | k in s'.w.rows ensures RowSound(s', k) && (!InFlight(s', k) ==> AtRest(s', k)) {
      assert RowSound(s, k) && (!InFlight(s, k) ==> AtRest(s, k));
    }
  }

  lemma LoadAllFresh(t: Table, order: seq<Key>, nows: seq<int>)
    requires Lists(order, t) && |nows| == |order|
    ensures QueueOk(LoadAll(t, order, nows), t)
  {
    forall i | 0 <= i < |order| ensures Fresh(LoadAll(t, order, nows)[i], t) {
      assert order[i] in t;
    }
  }

  lemma RefreshKeeps(s: Sys, e: Event)
    requires Inv(s) && s.ctl.Idle? && (e.Refresh? || e.RefreshAll? || e.Deregister?)
    ensures var s' := Apply(s, e); NodesOk(s') && ControlOk(s')
  {
    var s' := Apply(s, e);
    assert forall k | k in s.w.rows :: RowSound(s, k) && AtRest(s, k);
    match e
    case Refresh(k, force, now) =>
      forall k' | k' in s'.w.rows ensures RowSound(s', k') && AtRest(s', k') { UntouchedKeeps(s, s', k'); }
      if k in s.w.rows {
        assert Fresh(Queued(k, Sql.Load(s.w.rows[k], now)), s.w.rows);
        StartKeeps(s, Queued(k, Sql.Load(s.w.rows[k], now)), force);
      }
    case RefreshAll(order, force, nows) =>
      if Lists(order, s.w.rows) && |nows| == |order| {
        LoadAllFresh(s.w.rows, order, nows);
        NextKeeps(s, LoadAll(s.w.rows, order, nows), force, 0);
      }
    case Deregister(k) =>
      forall k | k in s'.w.rows ensures RowSound(s', k) && AtRest(s', k) { UntouchedKeeps(s, s', k); }
  }

  lemma ApplyKeeps(s: Sys, e: Event)
    requires Inv(s)
    ensures NodesOk(Apply(s, e)) && ControlOk(Apply(s, e))
  {
    match e
    case Register(k, req, now, minted, ok) => if s.ctl.Idle? { RegisterKeeps(s, k, req, now, minted, ok); }
    case Advance(env) => if s.ctl.Busy? { AdvanceKeeps(s, env); }
    case Return => if s.ctl.Busy? && s.ctl.pass.at == Returned { ReturnKeeps(s); }
    case Remove(call, ok) => RemoveKeeps(s, call, ok);
    case Crash(lost, cfg) => CrashKeeps(s, lost, cfg);
    case _ => if s.ctl.Idle? { RefreshKeeps(s, e); }
  }

  lemma ApplyConfigAndHistory(s: Sys, e: Event)
    requires ValidLifetime(s.cfg.defaultLifetime)
    ensures var s' := Apply(s, e);
            ValidLifetime(s'.cfg.defaultLifetime) && s'.committed == s.committed
  {
  }

  lemma ObserveKeeps(s: Sys, s': Sys)
    requires HistoryOk(s) && s'.committed == s.committed && PeersCommitted(s'.w, s.committed)
    requires ValidLifetime(s'.cfg.defaultLifetime) && NodesOk(s') && ControlOk(s')
    ensures Inv(Observe(s'))
  {
    forall k | k in s'.w.rows ensures RowSound(Observe(s'), k) && (!InFlight(s', k) ==> AtRest(Observe(s'), k)) {
      assert RowSound(s', k) && (!InFlight(s', k) ==> AtRest(s', k));
      UntouchedKeeps(s', Observe(s'), k);
    }
  }

  lemma {:induction false} InvStep(s: Sys, e: Event)
    requires Inv(s)
    ensures Inv(Step(s, e))
  {
    ApplyKeeps(s, e);
    ApplyConfigAndHistory(s, e);
    ApplySendsCommittedKeys(s, e);
    ObserveKeeps(s, Apply(s, e));
  }

  lemma {:induction false} InvRun(cfg: Config, es: seq<Event>)
    requires ValidLifetime(cfg.defaultLifetime)
    ensures Inv(Run(Init(cfg), es))
  {
    if es != [] {
      InvRun(cfg, es[..|es| - 1]);
      InvStep(Run(Init(cfg), es[..|es| - 1]), es[|es| - 1]);
    }
  }
}
