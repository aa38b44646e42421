/** The whole daemon as a state machine: the handlers of src/ubus_if.c start passes, the
    environment answers them step by step, and the process may die before any step. */
module System {
  import opened Types
  import Sql
  import opened Protocol
  import opened PassSafety

  // ---- register requests ----------------------------------------------------------------------

  datatype Request = Request(clientPort: int, psk: string, description: Option<string>,
                             clientComment: Option<string>, memlimit: Option<int>, ipCheckUrl: Option<string>,
                             xorKey: Option<string>, lifetime: Option<nat>)

  datatype Built = Built(node: Row) | InvalidArgument | UnknownError

  predicate SafeId(s: string) {
    s != "" && forall c <- s :: c as int > 0x20 && c as int != 0x7f
  }

  predicate ValidPort(port: int) {
    0 < port <= 65535
  }

  function NewNode(cfg: Config, now: int, key: string): Row {
    Row(0, Settings("", "", "", None, ""), "", "", key, cfg.defaultLifetime, AppliedStamp(now), NONE, "")
  }

  function Or<T>(o: Option<T>, default: T): T {
    if o.Some? then o.value else default
  }

  function Requested(prior: Settings, req: Request): Settings {
    Settings(req.psk, Or(req.description, prior.description), Or(req.clientComment, prior.clientComment),
             if req.memlimit.None? then prior.memlimit
             else if req.memlimit.value > 0 then req.memlimit else None,
             Or(req.ipCheckUrl, prior.ipCheckUrl))
  }

  /** The node a register request asks for; `prior` is the loaded row, if there is one. */
  function BuildNode(cfg: Config, k: Key, prior: Option<Row>, req: Request, now: int, minted: Option<FreshKey>): Built {
    if !SafeId(k.uid) || !ValidPort(k.port) || !ValidPort(req.clientPort) then InvalidArgument
    else if prior.None? && cfg.enableXor && minted.None? then UnknownError
    else
      var n := if prior.Some? then prior.value
               else NewNode(cfg, now, if cfg.enableXor then minted.value else "");
      if req.xorKey.Some? && (!SafeId(req.xorKey.value) || n.rotation != NONE) then InvalidArgument
      else if req.lifetime.Some? && !ValidLifetime(req.lifetime.value) then InvalidArgument
      else Built(n.(clientPort := req.clientPort, settings := Requested(n.settings, req),
                    xorKey := Or(req.xorKey, n.xorKey), lifetime := Or(req.lifetime, n.lifetime)))
  }

  // ---- state ---------------------------------------------------------------------------------

  datatype Queued = Queued(key: Key, node: Row)

  datatype Job = Replying(register: bool) | Listing(queue: seq<Queued>, force: bool, failed: nat)

  datatype Control = Idle | Busy(pass: Pass, job: Job) | DelServer(key: Key) | DelClient(key: Key) | DelRow(key: Key)

  /** The last six components record history and decide nothing: nodes whose forced startup pass
      is outstanding, nodes whose error mark failed, nodes a deregistration reached without
      deleting the row, nodes of which another one changed an entry they share, nodes with an
      apply decided and not completed, and every key committed to a row. */
  datatype Sys = Sys(cfg: Config, w: World, ctl: Control,
                     startup: set<Key>, unmarked: set<Key>, orphaned: set<Key>, eclipsed: set<Key>, owed: set<Key>,
                     committed: set<(Key, string)>)

  datatype Event =
    | Register(key: Key, req: Request, now: int, minted: Option<FreshKey>, upsertOk: bool)
    | Refresh(key: Key, force: bool, now: int)
    | RefreshAll(order: seq<Key>, force: bool, nows: seq<int>)
    | Deregister(key: Key)
    | Advance(env: PassEnv)
    | Return
    | Remove(call: Call, deleteOk: bool)
    | Crash(lost: set<ClientId>, cfg: Config)

  function Init(cfg: Config): Sys {
    Sys(cfg, World(map[], map[], map[]), Idle, {}, {}, {}, {}, {}, {})
  }

  function RowKeys(t: Table): set<(Key, string)> {
    set k | k in t :: (k, t[k].xorKey)
  }

  function Observe(s: Sys): Sys {
    s.(committed := s.committed + RowKeys(s.w.rows))
  }

  function Lookup(t: Table, k: Key, now: int): Option<Row> {
    if k in t then Some(Sql.Load(t[k], now)) else None
  }

  function RegisterStep(s: Sys, k: Key, req: Request, now: int, minted: Option<FreshKey>, upsertOk: bool): Sys {
    match BuildNode(s.cfg, k, Lookup(s.w.rows, k, now), req, now, minted)
    case Built(node) =>
      var created := k !in s.w.rows;
      (match Sql.Commit(upsertOk, Sql.Upsert(s.w.rows, k, node, created || req.lifetime.Some?))
       case None => s
       case Some(t) => s.(w := s.w.(rows := t), ctl := Busy(StartPass(k, node, true), Replying(true))))
    case _ => s
  }

  predicate Distinct(keys: seq<Key>) {
    forall i, j | 0 <= i < j < |keys| :: keys[i] != keys[j]
  }

  /** `order` lists the whole table; ties of the ORDER BY clause are resolved arbitrarily. */
  predicate Lists(order: seq<Key>, t: Table) {
    Distinct(order) && (forall k <- order :: k in t) && (forall k <- t.Keys :: k in order)
  }

  /** Every row is loaded on a clock reading of its own. */
  function LoadAll(t: Table, order: seq<Key>, nows: seq<int>): seq<Queued>
    requires (forall k <- order :: k in t) && |nows| == |order|
  {
    seq(|order|, i requires 0 <= i < |order| => Queued(order[i], Sql.Load(t[order[i]], nows[i])))
  }

  function NextOf(s: Sys, queue: seq<Queued>, force: bool, failed: nat): Control {
    if queue == [] then Idle
    else Busy(StartPass(queue[0].key, queue[0].node, force), Listing(queue[1..], force, failed))
  }

  /** The other nodes that find an entry of theirs changed. */
  function Eclipsed(w: World, w': World, k: Key): set<Key> {
    set k' | k' in w.rows && k' != k && !SamePeers(w, w', k')
  }

  function AdvanceStep(s: Sys, env: PassEnv): Sys
    requires s.ctl.Busy?
  {
    var c := PassStep(s.cfg, Conf(s.w, s.ctl.pass), env);
    s.(w := c.w, ctl := s.ctl.(pass := c.p), eclipsed := s.eclipsed + Eclipsed(s.w, c.w, c.p.key),
       owed := if c.p.at == SendPlaceholder || c.p.at == SendDetected then s.owed + {c.p.key} else s.owed)
  }

  /** The history a returned pass leaves: success clears every doubt about the node, a committed
      error mark replaces it by the error status, and a failed error mark records it. */
  function SettleHistory(s: Sys, p: Pass): Sys {
    if p.rc == 0 && p.applied then
      s.(startup := s.startup - {p.key}, unmarked := s.unmarked - {p.key},
         orphaned := s.orphaned - {p.key}, eclipsed := s.eclipsed - {p.key}, owed := s.owed - {p.key})
    else if p.rc != 0 && p.marked then
      s.(startup := s.startup - {p.key}, unmarked := s.unmarked - {p.key})
    else if p.rc != 0 then
      s.(unmarked := s.unmarked + {p.key})
    else s
  }

  function ReturnStep(s: Sys): Sys
    requires s.ctl.Busy?
  {
    var p := s.ctl.pass;
    var s1 := SettleHistory(s, p);
    match s.ctl.job
    case Replying(_) => s1.(ctl := Idle)
    case Listing(queue, force, failed) =>
      s1.(ctl := NextOf(s, queue, force, if p.rc != 0 then failed + 1 else failed))
  }

  function RemoveStep(s: Sys, call: Call, deleteOk: bool): Sys {
    match s.ctl
    case DelServer(k) =>
      var w := if TookEffect(call) then s.w.(server := s.w.server - {ServerOf(k)}) else s.w;
      s.(w := w, orphaned := s.orphaned + {k}, eclipsed := s.eclipsed + Eclipsed(s.w, w, k), ctl := DelClient(k))
    case DelClient(k) =>
      var w := if TookEffect(call) then s.w.(kernel := s.w.kernel - {ClientOf(k)}) else s.w;
      s.(w := w, eclipsed := s.eclipsed + Eclipsed(s.w, w, k), ctl := DelRow(k))
    case DelRow(k) =>
      (match Sql.Commit(deleteOk, Sql.Delete(s.w.rows, k))
       case None => s.(ctl := Idle)
       case Some(t) =>
         s.(w := s.w.(rows := t), ctl := Idle, startup := s.startup - {k}, unmarked := s.unmarked - {k},
            orphaned := s.orphaned - {k}, eclipsed := s.eclipsed - {k}, owed := s.owed - {k}))
    case _ => s
  }

  function Apply(s: Sys, e: Event): Sys {
    match e
    case Register(k, req, now, minted, upsertOk) =>
      if s.ctl.Idle? then RegisterStep(s, k, req, now, minted, upsertOk) else s
    case Refresh(k, force, now) =>
      if s.ctl.Idle? && k in s.w.rows then
        s.(ctl := Busy(StartPass(k, Sql.Load(s.w.rows[k], now), force), Replying(false)))
      else s
    case RefreshAll(order, force, nows) =>
      if s.ctl.Idle? && Lists(order, s.w.rows) && |nows| == |order| then
        s.(ctl := NextOf(s, LoadAll(s.w.rows, order, nows), force, 0))
      else s
    case Deregister(k) => if s.ctl.Idle? && k in s.w.rows then s.(ctl := DelServer(k)) else s
    case Advance(env) => if s.ctl.Busy? then AdvanceStep(s, env) else s
    case Return => if s.ctl.Busy? && s.ctl.pass.at == Returned then ReturnStep(s) else s
    case Remove(call, deleteOk) => RemoveStep(s, call, deleteOk)
    case Crash(lost, cfg) =>
      if ValidLifetime(cfg.defaultLifetime) then
        s.(cfg := cfg, ctl := Idle, w := s.w.(kernel := s.w.kernel - lost), startup := s.w.rows.Keys)
      else s
  }

  function Step(s: Sys, e: Event): Sys {
    Observe(Apply(s, e))
  }

  function Run(s: Sys, es: seq<Event>): Sys {
    if es == [] then s else Step(Run(s, es[..|es| - 1]), es[|es| - 1])
  }
}
