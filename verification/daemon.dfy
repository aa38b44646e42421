/** The ubus handlers and timers of src/ubus_if.c, run in place and shown to be runs of the
    system machine, so every theorem about runs holds of the states they leave. */
module Daemon {
  import opened Types
  import Sql
  import opened Protocol
  import opened PassSafety
  import opened System
  import opened SystemSafety
  import opened Convergence
  import opened Store
  import opened Reconcile
  import Theorems

  // ---- whole passes and sweeps as runs ----------------------------------------------------------

  lemma Extend(origin: Config, es: seq<Event>, e: Event) returns (es': seq<Event>)
    ensures es' == es + [e] && Run(Init(origin), es') == Step(Run(Init(origin), es), e)
  {
    es' := es + [e];
    Theorems.RunStep(origin, es, e);
  }

  /** No node has come into doubt. */
  predicate NoNewDoubt(s: Sys, s': Sys) {
    s'.startup <= s.startup && s'.unmarked <= s.unmarked && s'.orphaned <= s.orphaned
  }

  /** The environment's answers carry a pass in flight to its return. */
  lemma {:induction false} DrivePass(origin: Config, es: seq<Event>, env: PassEnv) returns (es': seq<Event>)
    requires Run(Init(origin), es).ctl.Busy?
    ensures var s, s' := Run(Init(origin), es), Run(Init(origin), es');
            var f := RunPass(s.cfg, Conf(s.w, s.ctl.pass), env);
            s'.w == f.w && s'.ctl == Busy(f.p, s.ctl.job) && s'.cfg == s.cfg && NoNewDoubt(s, s')
    ensures es <= es'
    decreases Rank(Run(Init(origin), es).ctl.pass.at)
  {
    var s := Run(Init(origin), es);
    if s.ctl.pass.at == Returned {
      es' := es;
    } else {
      var next := Extend(origin, es, Advance(env));
      AdvanceIsPassStep(s, env);
      es' := DrivePass(origin, next, env);
    }
  }

  lemma AdvanceIsPassStep(s: Sys, env: PassEnv)
    requires s.ctl.Busy?
    ensures var s' := Step(s, Advance(env));
            var c := PassStep(s.cfg, Conf(s.w, s.ctl.pass), env);
            s'.w == c.w && s'.ctl == Busy(c.p, s.ctl.job) && s'.cfg == s.cfg && NoNewDoubt(s, s')
            && s.owed <= s'.owed && s.startup == s'.startup
  {
  }

  /** The same for a whole sweep, from the point where its next node is to be started. */
  lemma {:induction false} DriveSweep(origin: Config, es: seq<Event>, queue: seq<Queued>, force: bool, failed: nat,
                                      envs: seq<PassEnv>)
    returns (es': seq<Event>)
    requires |envs| == |queue|
    requires var s := Run(Init(origin), es); s.ctl == NextOf(s, queue, force, failed)
    ensures var s, s' := Run(Init(origin), es), Run(Init(origin), es');
            s'.w == RunAll(s.cfg, s.w, queue, force, envs).w && s'.ctl == Idle && s'.cfg == s.cfg
    ensures es <= es'
    decreases |queue|
  {
    hide Run, Init, RunPass;
    if queue == [] {
      es' := es;
    } else {
      var mid := DrivePass(origin, es, envs[0]);
      var next := Extend(origin, mid, Return);
      var s1 := Run(Init(origin), mid);
      ReturnMovesOn(s1);
      var failed' := if s1.ctl.pass.rc != 0 then failed + 1 else failed;
      es' := DriveSweep(origin, next, queue[1..], force, failed', envs[1..]);
    }
  }

  lemma ReturnMovesOn(s: Sys)
    requires s.ctl.Busy? && s.ctl.pass.at == Returned
    ensures var s' := Step(s, Return);
            && s'.w == s.w && s'.cfg == s.cfg && (s.ctl.pass.rc == 0 ==> NoNewDoubt(s, s'))
            && s'.ctl == match s.ctl.job
                         case Replying(_) => Idle
                         case Listing(queue, force, failed) =>
                           NextOf(s, queue, force, if s.ctl.pass.rc != 0 then failed + 1 else failed)
  {
  }

  /** How each handler enters the machine. */
  lemma DriveRegister(origin: Config, es: seq<Event>, k: Key, req: Request, now: int, minted: Option<FreshKey>,
                      node: Row)
    returns (es': seq<Event>)
    requires var s := Run(Init(origin), es);
             && s.ctl == Idle && BuildNode(s.cfg, k, Lookup(s.w.rows, k, now), req, now, minted) == Built(node)
             && Sql.Upsert(s.w.rows, k, node, k !in s.w.rows || req.lifetime.Some?).Some?
    ensures es <= es'
    ensures var s, s' := Run(Init(origin), es), Run(Init(origin), es');
            && s'.cfg == s.cfg && s'.ctl == Busy(StartPass(k, node, true), Replying(true)) && NoNewDoubt(s, s')
            && s'.w == s.w.(rows := Sql.Upsert(s.w.rows, k, node, k !in s.w.rows || req.lifetime.Some?).value)
  {
    es' := Extend(origin, es, Register(k, req, now, minted, true));
  }

  lemma DriveRefresh(origin: Config, es: seq<Event>, k: Key, force: bool, now: int) returns (es': seq<Event>)
    requires var s := Run(Init(origin), es); s.ctl == Idle && k in s.w.rows
    ensures es <= es'
    ensures var s, s' := Run(Init(origin), es), Run(Init(origin), es');
            && s'.cfg == s.cfg && s'.w == s.w && s'.owed == s.owed && s'.startup == s.startup
            && s'.ctl == Busy(StartPass(k, Sql.Load(s.w.rows[k], now), force), Replying(false))
  {
    es' := Extend(origin, es, Refresh(k, force, now));
  }

  lemma DriveRefreshAll(origin: Config, es: seq<Event>, order: seq<Key>, force: bool, nows: seq<int>,
                        envs: seq<PassEnv>)
    returns (es': seq<Event>)
    requires |envs| == |order| && |nows| == |order|
    requires var s := Run(Init(origin), es); s.ctl == Idle && Lists(order, s.w.rows)
    ensures es <= es'
    ensures var s, s' := Run(Init(origin), es), Run(Init(origin), es');
            && s'.cfg == s.cfg && s'.ctl == Idle
            && s'.w == RunAll(s.cfg, s.w, LoadAll(s.w.rows, order, nows), force, envs).w
  {
    var s := Run(Init(origin), es);
    es' := Extend(origin, es, RefreshAll(order, force, nows));
    es' := DriveSweep(origin, es', LoadAll(s.w.rows, order, nows), force, 0, envs);
  }

  function Without(w: World, k: Key, serverCall: Call, clientCall: Call, deleted: bool): World {
    World(if deleted then w.rows - {k} else w.rows,
          if TookEffect(serverCall) then w.server - {ServerOf(k)} else w.server,
          if TookEffect(clientCall) then w.kernel - {ClientOf(k)} else w.kernel)
  }

  lemma RemoveFromServer(s: Sys, k: Key, call: Call)
    requires s.ctl == DelServer(k)
    ensures var s' := Step(s, Remove(call, false));
            s'.cfg == s.cfg && s'.ctl == DelClient(k)
            && s'.w == s.w.(server := if TookEffect(call) then s.w.server - {ServerOf(k)} else s.w.server)
  {
  }

  lemma RemoveFromClient(s: Sys, k: Key, call: Call)
    requires s.ctl == DelClient(k)
    ensures var s' := Step(s, Remove(call, false));
            s'.cfg == s.cfg && s'.ctl == DelRow(k)
            && s'.w == s.w.(kernel := if TookEffect(call) then s.w.kernel - {ClientOf(k)} else s.w.kernel)
  {
  }

  lemma RemoveFromTable(s: Sys, k: Key, call: Call, ok: bool)
    requires s.ctl == DelRow(k) && k in s.w.rows
    ensures var s' := Step(s, Remove(call, ok));
            s'.cfg == s.cfg && s'.ctl == Idle
            && s'.w == s.w.(rows := if ok then s.w.rows - {k} else s.w.rows)
  {
  }

  lemma StartRemoval(s: Sys, k: Key)
    requires s.ctl == Idle && k in s.w.rows
    ensures Step(s, Deregister(k)).ctl == DelServer(k)
    ensures Step(s, Deregister(k)).cfg == s.cfg && Step(s, Deregister(k)).w == s.w
  {
  }

  lemma DriveDeregister(origin: Config, es: seq<Event>, k: Key, serverCall: Call, clientCall: Call, ok: bool)
    returns (es': seq<Event>)
    requires var s := Run(Init(origin), es); s.ctl == Idle && k in s.w.rows
    ensures es <= es'
    ensures var s, s' := Run(Init(origin), es), Run(Init(origin), es');
            s'.cfg == s.cfg && s'.ctl == Idle && s'.w == Without(s.w, k, serverCall, clientCall, ok)
  {
    var e1 := Extend(origin, es, Deregister(k));
    StartRemoval(Run(Init(origin), es), k);
    var e2 := Extend(origin, e1, Remove(serverCall, false));
    RemoveFromServer(Run(Init(origin), e1), k, serverCall);
    var e3 := Extend(origin, e2, Remove(clientCall, false));
    RemoveFromClient(Run(Init(origin), e2), k, clientCall);
    es' := Extend(origin, e3, Remove(clientCall, ok));
    RemoveFromTable(Run(Init(origin), e3), k, clientCall, ok);
  }

  // ---- replies ------------------------------------------------------------------------------------

  datatype Reply =
    | BadRequest
    | InternalError
    | Stored(created: bool, applied: bool, node: Row)
    | NotFound
    | Refreshed(ok: bool, node: Row)
    | RefreshedAll(ok: bool)
    | Deleted(serverDeleted: bool, clientDeleted: bool, dbDeleted: bool)

  predicate Printable(s: string) {
    s != "" && forall c <- s :: ' ' < c && c as int != 127
  }

  predicate Addressable(k: Key, req: Request) {
    Printable(k.uid) && 1 <= k.port <= 65535 && 1 <= req.clientPort <= 65535
  }

  /** The optional fields of a request are in order; a key cannot be named while a rotation is on. */
  predicate WellFormed(t: Table, k: Key, req: Request) {
    && (req.xorKey.Some? ==> Printable(req.xorKey.value) && (k in t ==> t[k].rotation == 0))
    && (req.lifetime.Some? ==> req.lifetime.value == 0 || 60 <= req.lifetime.value <= 2147483647)
  }

  predicate KeyAvailable(cfg: Config, t: Table, k: Key, minted: Option<FreshKey>) {
    k in t || !cfg.enableXor || minted.Some?
  }

  predicate PortFree(t: Table, k: Key, clientPort: int) {
    forall k' | k' in t && k' != k && k'.host == k.host && k'.port == k.port && k'.ipVersion == k.ipVersion ::
      t[k'].clientPort != clientPort
  }

  /** A register that is stored. */
  predicate Accepts(cfg: Config, t: Table, k: Key, req: Request, minted: Option<FreshKey>, getOk: bool,
                    upsertOk: bool) {
    && Addressable(k, req) && getOk && KeyAvailable(cfg, t, k, minted) && WellFormed(t, k, req)
    && upsertOk && PortFree(t, k, req.clientPort)
  }

  /** The status of one that is not: the request is to blame only if its fields are. */
  function Refusal(cfg: Config, t: Table, k: Key, req: Request, minted: Option<FreshKey>, getOk: bool): Reply {
    if !Addressable(k, req) then BadRequest
    else if !getOk || !KeyAvailable(cfg, t, k, minted) then InternalError
    else if !WellFormed(t, k, req) then BadRequest
    else InternalError
  }

  /** The operator's columns of the stored row: what the request gives, else what the row had, else
      the defaults. */
  predicate SettingsRequested(cfg: Config, t: Table, k: Key, req: Request, r: Row) {
    && r.clientPort == req.clientPort && r.settings.psk == req.psk
    && r.settings.description
       == (if req.description.Some? then req.description.value else if k in t then t[k].settings.description else "")
    && r.settings.clientComment
       == (if req.clientComment.Some? then req.clientComment.value
           else if k in t then t[k].settings.clientComment else "")
    && r.settings.memlimit
       == (if req.memlimit.Some? then (if req.memlimit.value > 0 then Some(req.memlimit.value) else None)
           else if k in t then t[k].settings.memlimit else None)
    && (var url := if req.ipCheckUrl.Some? then req.ipCheckUrl.value
                   else if k in t then t[k].settings.ipCheckUrl else "";
        r.settings.ipCheckUrl == if url == "" then "http://ip.3322.net/" else url)
    && r.lifetime
       == (if req.lifetime.Some? then req.lifetime.value else if k in t then t[k].lifetime else cfg.defaultLifetime)
  }

  /** And its key: a rotation in progress keeps its own. */
  predicate KeyRequested(cfg: Config, t: Table, k: Key, req: Request, minted: Option<FreshKey>, r: Row) {
    if k in t && t[k].rotation != 0 then r.xorKey == t[k].xorKey
    else if req.xorKey.Some? then r.xorKey == req.xorKey.value
    else if k in t then r.xorKey == t[k].xorKey
    else if cfg.enableXor then minted == Some(r.xorKey)
    else r.xorKey == ""
  }

  /** And what the operator has no say in: kept, or that of a node not yet applied. */
  predicate ProgressKept(t: Table, k: Key, now: int, r: Row) {
    if k in t then
      && r.rotation == t[k].rotation && r.pending == t[k].pending && r.lastApplied == t[k].lastApplied
      && r.currentIp == t[k].currentIp && r.status == if t[k].status != "" then t[k].status else "active"
    else
      && r.rotation == 0 && r.pending == "" && r.currentIp == "" && r.status == "active"
      && r.lastApplied == if now >= MIN_SANE_TIME then now else 0
  }

  predicate AsRequested(cfg: Config, t: Table, k: Key, req: Request, now: int, minted: Option<FreshKey>, r: Row) {
    SettingsRequested(cfg, t, k, req, r) && KeyRequested(cfg, t, k, req, minted, r) && ProgressKept(t, k, now, r)
  }

  /** A listed node after a forced sweep: settled, and in agreement with both ends unless a node
      listed after it shares an entry. */
  predicate RepairedAt(cfg: Config, w: World, order: seq<Key>, i: nat)
    requires i < |order|
  {
    && order[i] in w.rows && Settled(w.rows[order[i]])
    && ((forall j | i < j < |order| :: !Shares(order[j], order[i])) ==> Matches(cfg, w, order[i]))
  }

  /** The node is built exactly when the key is at hand and the request is in order. */
  lemma BuildsWhenWellFormed(cfg: Config, t: Table, k: Key, req: Request, now: int, minted: Option<FreshKey>)
    ensures var b := BuildNode(cfg, k, Lookup(t, k, now), req, now, minted);
            && (b.Built? <==> Addressable(k, req) && KeyAvailable(cfg, t, k, minted) && WellFormed(t, k, req))
            && (b == UnknownError <==> Addressable(k, req) && !KeyAvailable(cfg, t, k, minted))
  {
  }

  /** What is built is upserted exactly when its port is free, as the row that was asked for. */
  lemma StoresWhatIsAsked(cfg: Config, t: Table, k: Key, req: Request, now: int, minted: Option<FreshKey>, node: Row)
    requires BuildNode(cfg, k, Lookup(t, k, now), req, now, minted) == Built(node)
    ensures var stored := Sql.Upsert(t, k, node, k !in t || req.lifetime.Some?);
            && (stored.Some? <==> PortFree(t, k, req.clientPort))
            && (stored.Some? ==>
                  && k in stored.value && stored.value == t[k := stored.value[k]]
                  && AsRequested(cfg, t, k, req, now, minted, stored.value[k]) && Coherent(node, stored.value[k]))
  {
  }

  class Daemon {
    const cfg: Config
    const db: Database
    const runner: Runner
    ghost const origin: Config
    ghost var trace: seq<Event>

    ghost function State(): Sys
      reads this
    {
      Run(Init(origin), trace)
    }

    /** Between handlers: the run so far has led to the table and the peers as they are. */
    ghost predicate Valid()
      reads this, db, runner
    {
      && ValidLifetime(origin.defaultLifetime)
      && State().ctl == Idle && State().cfg == cfg && State().w == WorldOf(db, runner)
    }

    /** A process started on whatever an earlier run left: the table survives, entries of the
        local client may be gone. */
    constructor (cfg: Config, db: Database, runner: Runner, ghost origin: Config, ghost past: seq<Event>,
                 ghost lost: set<ClientId>)
      requires ValidLifetime(origin.defaultLifetime) && ValidLifetime(cfg.defaultLifetime)
      requires var s := Run(Init(origin), past);
               WorldOf(db, runner) == s.w.(kernel := s.w.kernel - lost)
      ensures Valid() && this.db == db && this.runner == runner && this.cfg == cfg
      ensures trace == past + [Crash(lost, cfg)]
    {
      this.cfg, this.db, this.runner, this.origin := cfg, db, runner, origin;
      trace := past + [Crash(lost, cfg)];
      Theorems.RunStep(origin, past, Crash(lost, cfg));
    }

    /** The row after a pass that returned 0: no rotation, no mark, and the address that was detected. */
    static predicate InOrder(r: Row, env: PassEnv) {
      r.rotation == 0 && !Marked(r) && env.detection.Detected? && SameText(r.currentIp, env.detection.ip)
    }

    /** One pass over a node the run has just put in flight, then back to idle. A forced pass
        that returns 0 has applied the row; an unforced one may have skipped a node in order. */
    method PassOver(node: Node, force: bool, env: PassEnv, ghost es: seq<Event>)
      returns (err: int, ghost es': seq<Event>)
      requires ValidLifetime(origin.defaultLifetime)
      requires var s := Run(Init(origin), es);
               s.cfg == cfg && s.w == WorldOf(db, runner) && s.ctl.Busy? && s.ctl.job.Replying?
               && s.ctl.pass == StartPass(node.key, node.Value(), force)
      modifies db, runner, node
      ensures es <= es' && Idles(Run(Init(origin), es'))
      ensures node.key in db.rows && Coherent(node.Value(), db.rows[node.key])
      ensures var f := RunPass(cfg, Conf(old(WorldOf(db, runner)), StartPass(node.key, old(node.Value()), force)), env);
              WorldOf(db, runner) == f.w && err == f.p.rc
      ensures err == 0 && force ==> Settled(db.rows[node.key]) && Matches(cfg, WorldOf(db, runner), node.key)
      ensures err == 0 ==> InOrder(db.rows[node.key], env)
    {
      ghost var p: Pass;
      es' := DrivePass(origin, es, env);
      err, p := ReconcileOne(db, runner, cfg, node, force, env);
      Theorems.MemoryCoherent(origin, es');
      if err == 0 { Theorems.ReturnTruth(origin, es'); }
      ReturnMovesOn(Run(Init(origin), es'));
      es' := Extend(origin, es', Return);
    }

    ghost predicate Idles(s: Sys)
      reads db, runner
    {
      s.ctl == Idle && s.cfg == cfg && s.w == WorldOf(db, runner)
    }

    static method Overwrite(prior: Settings, req: Request) returns (s: Settings)
      ensures s == Requested(prior, req)
    {
      s := prior.(psk := req.psk);
      if req.description.Some? { s := s.(description := req.description.value); }
      if req.clientComment.Some? { s := s.(clientComment := req.clientComment.value); }
      if req.memlimit.Some? { s := s.(memlimit := if req.memlimit.value > 0 then req.memlimit else None); }
      if req.ipCheckUrl.Some? { s := s.(ipCheckUrl := req.ipCheckUrl.value); }
    }

    /** Checks the request and overwrites the loaded node with it, field by field. */
    method BuildRequested(k: Key, found: Option<Row>, req: Request, now: int, minted: Option<FreshKey>)
      returns (built: Built)
      ensures built == BuildNode(cfg, k, found, req, now, minted)
    {
      if !SafeId(k.uid) || k.port <= 0 || k.port > 65535 || req.clientPort <= 0 || req.clientPort > 65535 {
        return InvalidArgument;
      }
      var n: Row;
      if found.Some? {
        n := found.value;
      } else {
        n := Row(0, Settings("", "", "", None, ""), "", "", "", cfg.defaultLifetime,
                 if now >= MIN_SANE_TIME then now else 0, NONE, "");
        if cfg.enableXor {
          if minted.None? {
            return UnknownError;
          }
          n := n.(xorKey := minted.value);
        }
      }
      n := n.(clientPort := req.clientPort);
      var settings := Overwrite(n.settings, req);
      n := n.(settings := settings);
      if req.xorKey.Some? {
        if !SafeId(req.xorKey.value) || n.rotation != NONE {
          return InvalidArgument;
        }
        n := n.(xorKey := req.xorKey.value);
      }
      if req.lifetime.Some? {
        if req.lifetime.value != 0 && (req.lifetime.value < LIFETIME_MIN || req.lifetime.value > LIFETIME_MAX) {
          return InvalidArgument;
        }
        n := n.(lifetime := req.lifetime.value);
      }
      built := Built(n);
    }

    /** The first half of `register`: loads the node, overwrites it and upserts it. */
    method StoreRequested(k: Key, req: Request, now: int, minted: Option<FreshKey>, getOk: bool, upsertOk: bool)
      returns (refused: Reply, created: bool, stored: Option<Row>)
      modifies db
      ensures stored.Some? <==> Accepts(cfg, old(db.rows), k, req, minted, getOk, upsertOk)
      ensures stored.None? ==>
                && db.rows == old(db.rows) && !refused.Stored?
                && refused == Refusal(cfg, old(db.rows), k, req, minted, getOk)
      ensures stored.Some? ==>
                && created == (k !in old(db.rows)) && k in db.rows && db.rows == old(db.rows)[k := db.rows[k]]
                && AsRequested(cfg, old(db.rows), k, req, now, minted, db.rows[k]) && Coherent(stored.value, db.rows[k])
      ensures stored.Some? ==>
                && BuildNode(cfg, k, Lookup(old(db.rows), k, now), req, now, minted) == Built(stored.value)
                && Sql.Upsert(old(db.rows), k, stored.value, created || req.lifetime.Some?) == Some(db.rows)
    {
      refused, created, stored := InternalError, false, None;
      var rc, found := db.GetNode(k, now, getOk);
      if rc == -1 {
        refused := if Addressable(k, req) then InternalError else BadRequest;
        return;
      }
      var built := BuildRequested(k, if rc == 0 then Some(found) else None, req, now, minted);
      BuildsWhenWellFormed(cfg, db.rows, k, req, now, minted);
      if built == InvalidArgument {
        refused := BadRequest;
        return;
      }
      if built == UnknownError {
        return;
      }
      StoresWhatIsAsked(cfg, db.rows, k, req, now, minted, built.node);
      var err := db.Upsert(k, built.node, rc == 1 || req.lifetime.Some?, upsertOk);
      if err != 0 {
        return;
      }
      created, stored := rc == 1, Some(built.node);
    }

    /** `register`: stores the node as requested and applies it at once with one forced pass; an "ok"
        reply is the truth about the table and both peers. `table` is the table the pass starts
        from and `node` the node in memory. */
    method HandleRegister(k: Key, req: Request, now: int, minted: Option<FreshKey>, getOk: bool, upsertOk: bool,
                          env: PassEnv, rereadOk: bool)
      returns (reply: Reply, ghost table: Table, ghost node: Row)
      requires Valid()
      modifies this`trace, db, runner
      ensures Valid() && old(trace) <= trace
      ensures reply.Stored? <==> Accepts(cfg, old(db.rows), k, req, minted, getOk, upsertOk)
      ensures !reply.Stored? ==>
                WorldOf(db, runner) == old(WorldOf(db, runner))
                && reply == Refusal(cfg, old(db.rows), k, req, minted, getOk)
      ensures reply.Stored? ==>
                && reply.created == (k !in old(db.rows)) && k in table && table == old(db.rows)[k := table[k]]
                && AsRequested(cfg, old(db.rows), k, req, now, minted, table[k]) && Coherent(node, table[k])
                && Passed(reply.applied, old(WorldOf(db, runner)).(rows := table), k, node, true, env)
      ensures reply.Stored? ==>
                && k in db.rows && SettingsRequested(cfg, old(db.rows), k, req, db.rows[k])
                && (KeyRequested(cfg, old(db.rows), k, req, minted, db.rows[k])
                    || env.freshKey == Some(db.rows[k].xorKey))
                && (rereadOk ==> reply.node == Sql.Load(db.rows[k], now))
      ensures reply.Stored? && reply.applied ==>
                Settled(db.rows[k]) && InOrder(db.rows[k], env) && Matches(cfg, WorldOf(db, runner), k)
    {
      hide RunPass, Coherent, Sql.Upsert, Sql.Load, BuildNode, Accepts, Refusal, AsRequested, Matches, Settled, Run,
           SettingsRequested, KeyRequested, InOrder;
      var refused, created, stored := StoreRequested(k, req, now, minted, getOk, upsertOk);
      if stored.None? {
        table, node := db.rows, Row(0, Settings("", "", "", None, ""), "", "", "", 0, 0, NONE, "");
        return refused, table, node;
      }
      table, node := db.rows, stored.value;
      ghost var es := DriveRegister(origin, trace, k, req, now, minted, stored.value);
      var memory := new Node(k, stored.value);
      var err;
      err, es := PassOver(memory, true, env, es);
      trace := es;
      ghost var c := Conf(old(WorldOf(db, runner)).(rows := table), StartPass(k, node, true));
      RequestSurvives(old(db.rows), c, req, now, minted, env);
      var again, row := db.GetNode(k, now, rereadOk);
      reply := Stored(created, err == 0, if again == 0 then row else memory.Value());
    }

    /** The table and the peers are what one pass from `w` leaves, and `ok` is its verdict. */
    ghost predicate Passed(ok: bool, w: World, k: Key, node: Row, force: bool, env: PassEnv)
      reads db, runner
    {
      var f := RunPass(cfg, Conf(w, StartPass(k, node, force)), env);
      WorldOf(db, runner) == f.w && (ok <==> f.p.rc == 0)
    }

    lemma RequestSurvives(t: Table, c: Conf, req: Request, now: int, minted: Option<FreshKey>, env: PassEnv)
      requires c.p.key in c.w.rows && AsRequested(cfg, t, c.p.key, req, now, minted, c.w.rows[c.p.key])
      ensures var w', k := RunPass(cfg, c, env).w, c.p.key;
              && k in w'.rows && SettingsRequested(cfg, t, k, req, w'.rows[k])
              && (KeyRequested(cfg, t, k, req, minted, w'.rows[k]) || env.freshKey == Some(w'.rows[k].xorKey))
    {
      hide RunPass;
      PassKeepsSettings(cfg, c, env);
    }

    /** `deregister`: removes the node from both peers, then from the table, whatever each returned. */
    method HandleDeregister(k: Key, now: int, getOk: bool, serverCall: Call, clientCall: Call, deleteOk: bool)
      returns (reply: Reply)
      requires Valid()
      modifies this`trace, db, runner
      ensures Valid() && old(trace) <= trace
      ensures reply == InternalError || reply == NotFound ==> WorldOf(db, runner) == old(WorldOf(db, runner))
      ensures reply == NotFound ==> k !in db.rows
      ensures reply.Deleted? ==>
                && (reply.serverDeleted <==> serverCall.Acked?) && (reply.clientDeleted <==> clientCall.Acked?)
                && (reply.dbDeleted <==> k !in db.rows) && (reply.serverDeleted ==> ServerOf(k) !in runner.server)
                && (reply.clientDeleted ==> ClientOf(k) !in runner.kernel)
      ensures reply.Deleted? ==>
                WorldOf(db, runner) == Without(old(WorldOf(db, runner)), k, serverCall, clientCall, reply.dbDeleted)
      ensures reply.Deleted? || reply == InternalError || reply == NotFound
    {
      var rc, found := db.GetNode(k, now, getOk);
      if rc == 1 {
        return NotFound;
      }
      if rc != 0 {
        return InternalError;
      }
      trace := DriveDeregister(origin, trace, k, serverCall, clientCall, deleteOk);
      var rcServer := runner.ServerDel(k, serverCall);
      var rcClient := runner.ClientDel(k, clientCall);
      var rcDb := db.DeleteNode(k, deleteOk);
      reply := Deleted(rcServer == 0, rcClient == 0, rcDb == 0);
    }

    /** `refresh` of one node. */
    method HandleRefresh(k: Key, force: bool, now: int, getOk: bool, env: PassEnv, rereadOk: bool)
      returns (reply: Reply)
      requires Valid()
      modifies this`trace, db, runner
      ensures Valid() && old(trace) <= trace
      ensures !reply.Refreshed? ==>
                (reply == InternalError || (reply == NotFound && k !in db.rows))
                && WorldOf(db, runner) == old(WorldOf(db, runner))
      ensures reply.Refreshed? ==> k in db.rows
      ensures reply.Refreshed? <==> getOk && k in old(db.rows)
      ensures reply.Refreshed? ==>
                && k in old(db.rows)
                && Passed(reply.ok, old(WorldOf(db, runner)), k, Sql.Load(old(db.rows)[k], now), force, env)
                && (rereadOk ==> reply.node == Sql.Load(db.rows[k], now))
      ensures reply.Refreshed? && reply.ok ==> InOrder(db.rows[k], env)
      ensures reply.Refreshed? && reply.ok && force ==> Settled(db.rows[k]) && Matches(cfg, WorldOf(db, runner), k)
    {
      hide RunPass, Matches;
      var rc, found := db.GetNode(k, now, getOk);
      if rc == 1 {
        return NotFound;
      }
      if rc != 0 {
        return InternalError;
      }
      ghost var es := DriveRefresh(origin, trace, k, force, now);
      var node := new Node(k, found);
      var err;
      err, es := PassOver(node, force, env, es);
      trace := es;
      var again, row := db.GetNode(k, now, rereadOk);
      reply := Refreshed(err == 0, if again == 0 then row else node.Value());
    }

    /** `refresh` of every node; also, forced, the startup timer and an interface coming up, and,
        unforced, the periodic timer. Every listed node whose environment cooperates with a
        forced refresh is repaired, whatever becomes of the others. */
    method HandleRefreshAll(force: bool, order: seq<Key>, nows: seq<int>, listOk: bool, envs: seq<PassEnv>)
      returns (reply: Reply)
      requires Valid() && Lists(order, db.rows) && |nows| == |order| && |envs| == |order|
      modifies this`trace, db, runner
      ensures Valid() && old(trace) <= trace && reply.RefreshedAll?
      ensures !listOk ==> !reply.ok && WorldOf(db, runner) == old(WorldOf(db, runner))
      ensures var queue := LoadAll(old(db.rows), order, nows);
              listOk ==>
                var sweep := RunAll(cfg, old(WorldOf(db, runner)), queue, force, envs);
                WorldOf(db, runner) == sweep.w && (reply.ok <==> Failures(sweep.rcs) == 0)
      ensures listOk && force ==> forall i | 0 <= i < |order| && Cooperates(envs[i]) ::
                RepairedAt(cfg, WorldOf(db, runner), order, i)
    {
      var err := ReconcileAll(db, runner, cfg, force, order, nows, listOk, envs);
      reply := RefreshedAll(err == 0);
      if listOk {
        trace := DriveRefreshAll(origin, trace, order, force, nows, envs);
        if force { SweepRepairs(old(WorldOf(db, runner)), order, nows, envs); }
      }
    }

    lemma SweepRepairs(w: World, order: seq<Key>, nows: seq<int>, envs: seq<PassEnv>)
      requires Lists(order, w.rows) && |nows| == |order| && |envs| == |order|
      ensures var w' := RunAll(cfg, w, LoadAll(w.rows, order, nows), true, envs).w;
              forall i | 0 <= i < |order| && Cooperates(envs[i]) :: RepairedAt(cfg, w', order, i)
    {
      forall i | 0 <= i < |order| && Cooperates(envs[i])
        ensures RepairedAt(cfg, RunAll(cfg, w, LoadAll(w.rows, order, nows), true, envs).w, order, i)
      {
        SweepRepairsOne(w, order, nows, envs, i);
      }
    }

    lemma SweepRepairsOne(w: World, order: seq<Key>, nows: seq<int>, envs: seq<PassEnv>, i: nat)
      requires Lists(order, w.rows) && |nows| == |order| && |envs| == |order| && i < |order| && Cooperates(envs[i])
      ensures RepairedAt(cfg, RunAll(cfg, w, LoadAll(w.rows, order, nows), true, envs).w, order, i)
    {
      hide RunAll, Matches, Shares;
      LoadAllFresh(w.rows, order, nows);
      SweepConverges(cfg, w, LoadAll(w.rows, order, nows), envs, i);
      if forall j | i < j < |order| :: !Shares(order[j], order[i]) {
        LaterAreApart(LoadAll(w.rows, order, nows), order, i);
      }
    }
  }

  lemma LaterAreApart(queue: seq<Queued>, order: seq<Key>, i: nat)
    requires |queue| == |order| && i < |order| && Distinct(order)
    requires forall j | 0 <= j < |order| :: queue[j].key == order[j]
    requires forall j | i < j < |order| :: !Shares(order[j], order[i])
    ensures ApartFrom(queue[i + 1..], order[i])
  {
  }
}
