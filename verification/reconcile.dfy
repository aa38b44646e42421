/** `tumgrd_reconcile_one` and `tumgrd_reconcile_all` as the source runs them, in place on the
    database, the peers and the node, each proved to perform the pass machine's run. */
module Reconcile {
  import opened Types
  import Sql
  import opened Protocol
  import opened Store
  import opened System
  import opened Convergence

  /** The two peers as the top of src/runner.c drives them: every call is a subprocess whose
      outcome the environment supplies. `timedOut` is the watchdog flag the last call left. */
  class Runner {
    var server: map<ServerId, ServerEntry>
    var kernel: map<ClientId, KernelEntry>
    var timedOut: bool
    ghost var calls: seq<Call>

    constructor (server: map<ServerId, ServerEntry>, kernel: map<ClientId, KernelEntry>)
      ensures this.server == server && this.kernel == kernel && calls == []
    {
      this.server, this.kernel, timedOut, calls := server, kernel, false, [];
    }

    /** One subprocess: 0 if acknowledged. */
    method Exec(call: Call) returns (rc: int)
      modifies this`timedOut, this`calls
      ensures rc == (if call.Acked? then 0 else -1) && timedOut == TimedOut(call) && calls == old(calls) + [call]
    {
      calls := calls + [call];
      match call
      case Acked => rc, timedOut := 0, false;
      case Failed(_, late) => rc, timedOut := -1, late;
    }

    method RunServerAdd(node: Node, address: Address, call: Call) returns (rc: int)
      modifies this
      ensures rc == (if call.Acked? then 0 else -1) && timedOut == TimedOut(call)
      ensures calls == old(calls) + [call] && kernel == old(kernel)
      ensures server == if TookEffect(call) then old(server)[ServerOf(node.key) := ServerEntryOf(node.Value(), address)]
                        else old(server)
    {
      rc := Exec(call);
      if call.Acked? || call.applied {
        var entry := ServerEntry(node.clientPort, node.xorKey, node.settings.clientComment, address);
        server := server[ServerOf(node.key) := entry];
      }
    }

    method TryServerAdd(node: Node, address: Address, call: Call, ghost c: Conf) returns (rc: int)
      requires Tracks(this, node, c)
      modifies this
      ensures rc == (if call.Acked? then 0 else -1) && timedOut == TimedOut(call)
      ensures Tracks(this, node, SendTo(c, call, address))
    {
      rc := RunServerAdd(node, address, call);
    }

    /** The address placeholder first, where configured, then the detected address, unless the
        first subprocess was killed at its deadline. */
    method ServerAdd(cfg: Config, node: Node, ip: string, env: PassEnv, ghost c: Conf) returns (err: int, ghost r: Conf)
      requires Tracks(this, node, c) && c.p.ip == ip && ip != ""
      requires c.p.at == if cfg.useClientIp then SendPlaceholder else SendDetected
      modifies this
      ensures Tracks(this, node, r) && RunPass(cfg, r, env) == RunPass(cfg, c, env) && r.w.rows == c.w.rows
      ensures r.p == Moved(c.p, err, Confirm).(calls := calls)
    {
      hide RunPass;
      r := c;
      if cfg.useClientIp {
        err := TryServerAdd(node, ClientIp, env.placeholder, c);
        r := SendAsClientStep(cfg, c, env);
        if err == 0 {
          return;
        }
        if timedOut {
          return;
        }
      }
      err := TryServerAdd(node, Literal(ip), env.detected, r);
      r := SendIpStep(cfg, r, env);
    }

    method ServerDel(key: Key, call: Call) returns (rc: int)
      modifies this
      ensures rc == (if call.Acked? then 0 else -1) && kernel == old(kernel)
      ensures server == if TookEffect(call) then old(server) - {ServerOf(key)} else old(server)
    {
      rc := Exec(call);
      if call.Acked? || call.applied {
        server := server - {ServerOf(key)};
      }
    }

    method ClientDel(key: Key, call: Call) returns (rc: int)
      modifies this
      ensures rc == (if call.Acked? then 0 else -1) && timedOut == TimedOut(call)
      ensures calls == old(calls) + [call] && server == old(server)
      ensures kernel == if TookEffect(call) then old(kernel) - {ClientOf(key)} else old(kernel)
    {
      rc := Exec(call);
      if call.Acked? || call.applied {
        kernel := kernel - {ClientOf(key)};
      }
    }

    method ClientAdd(node: Node, call: Call) returns (rc: int)
      modifies this
      ensures rc == (if call.Acked? then 0 else -1) && timedOut == TimedOut(call)
      ensures calls == old(calls) + [call] && server == old(server)
      ensures kernel == if TookEffect(call) then old(kernel)[ClientOf(node.key) := KernelEntryOf(node.Value())]
                        else old(kernel)
    {
      rc := Exec(call);
      if call.Acked? || call.applied {
        kernel := kernel[ClientOf(node.key) := KernelEntry(node.clientPort, node.xorKey, node.settings.description)];
      }
    }

    /** Deletes and adds the local client; a failed delete is ignored unless it timed out. */
    method ResetLocalClient(cfg: Config, node: Node, env: PassEnv, ghost c: Conf) returns (err: int, ghost r: Conf)
      requires Tracks(this, node, c) && c.p.at == Label.ClientDel
      modifies this
      ensures Tracks(this, node, r) && RunPass(cfg, r, env) == RunPass(cfg, c, env) && r.w.rows == c.w.rows
      ensures r.p == Moved(c.p, err, MarkActive).(calls := calls)
    {
      hide RunPass;
      var _ := ClientDel(node.key, env.clientDel);
      r := DropClientStep(cfg, c, env);
      if timedOut {
        return -1, r;
      }
      err := ClientAdd(node, env.clientAdd);
      r := AddClientStep(cfg, r, env);
    }
  }

  lemma DropClientStep(cfg: Config, c: Conf, env: PassEnv) returns (r: Conf)
    requires c.p.at == Label.ClientDel
    ensures RunPass(cfg, r, env) == RunPass(cfg, c, env) && r.w == RunClientDel(c, env.clientDel).w
    ensures r.p == Moved(c.p, if TimedOut(env.clientDel) then -1 else 0, Label.ClientAdd)
                   .(calls := c.p.calls + [env.clientDel])
  {
    hide RunPass;
    r := DropClient(c, env);
    Unfold(cfg, c, env);
  }

  lemma AddClientStep(cfg: Config, c: Conf, env: PassEnv) returns (r: Conf)
    requires c.p.at == Label.ClientAdd
    ensures RunPass(cfg, r, env) == RunPass(cfg, c, env) && r.w == RunClientAdd(c, env.clientAdd).w
    ensures r.p == Moved(c.p, if env.clientAdd.Acked? then 0 else -1, MarkActive)
                   .(calls := c.p.calls + [env.clientAdd])
  {
    hide RunPass;
    r := AddClient(c, env);
    Unfold(cfg, c, env);
  }

  lemma SendAsClientStep(cfg: Config, c: Conf, env: PassEnv) returns (r: Conf)
    requires c.p.at == SendPlaceholder
    ensures RunPass(cfg, r, env) == RunPass(cfg, c, env) && r.w == SendTo(c, env.placeholder, ClientIp).w
    ensures r.p == c.p.(calls := c.p.calls + [env.placeholder], rc := r.p.rc, at := r.p.at)
    ensures if env.placeholder.Acked? then r.p.at == Confirm && r.p.rc == c.p.rc
            else if TimedOut(env.placeholder) then r.p.at == MarkError && r.p.rc == -1
            else r.p.at == SendDetected && r.p.rc == c.p.rc
  {
    hide RunPass;
    r := SendAsClient(c, env);
    Unfold(cfg, c, env);
  }

  lemma SendIpStep(cfg: Config, c: Conf, env: PassEnv) returns (r: Conf)
    requires c.p.at == SendDetected
    ensures RunPass(cfg, r, env) == RunPass(cfg, c, env) && r.w == SendTo(c, env.detected, Literal(c.p.ip)).w
    ensures r.p == Moved(c.p, if env.detected.Acked? then 0 else -1, Confirm).(calls := c.p.calls + [env.detected])
  {
    hide RunPass;
    r := SendIp(c, env);
    Unfold(cfg, c, env);
  }

  /** The pass at its next label, or on its error exit. */
  function Moved(p: Pass, err: int, next: Label): Pass {
    if err == 0 then p.(at := next) else p.(at := MarkError, rc := err)
  }

  /** The machine configuration `c` describes the node in memory, what the peers hold and the
      subprocesses run so far. */
  ghost predicate Tracks(runner: Runner, node: Node, c: Conf)
    reads runner, node
  {
    && c.w.server == runner.server && c.w.kernel == runner.kernel && c.p.calls == runner.calls
    && c.p.key == node.key && c.p.node == node.Value()
  }

  function WorldOf(db: Database, runner: Runner): World
    reads db, runner
  {
    World(db.rows, runner.server, runner.kernel)
  }

  /** One of the two repair blocks. */
  method HealNode(db: Database, cfg: Config, node: Node, env: PassEnv) returns (err: int)
    modifies db, node
    ensures Ran(err, Repair(cfg, old(node.Value()), node.key, old(db.rows), env), old(db.rows), db.rows)
    ensures node.Value() == if err == 0 then Healed(cfg, old(node.Value()), env) else old(node.Value())
  {
    if cfg.enableXor && node.xorKey != "" {
      if env.freshKey.None? {
        return -1;
      }
      err := db.ReplaceRotation(node.key, env.freshKey.value, env.healOk);
      if err != 0 {
        return;
      }
      node.xorKey := env.freshKey.value;
      node.rotation := PENDING_REMOTE;
      node.pending := env.freshKey.value;
    } else {
      err := db.ClearRotation(node.key, env.healOk);
      if err != 0 {
        return;
      }
      node.rotation := NONE;
      node.pending := "";
    }
  }

  /** The machine is at `c`, from which its pass ends as it does from `c0`. */
  ghost predicate OnCourse(db: Database, runner: Runner, node: Node, cfg: Config, env: PassEnv, c0: Conf, c: Conf)
    reads db, runner, node
  {
    Tracks(runner, node, c) && c.w.rows == db.rows && RunPass(cfg, c, env) == RunPass(cfg, c0, env)
  }

  method HealInvalidState(db: Database, runner: Runner, cfg: Config, node: Node, env: PassEnv, ghost c: Conf)
    returns (err: int, ghost r: Conf)
    requires OnCourse(db, runner, node, cfg, env, c, c) && c.p.at == HealState
    modifies db, node
    ensures OnCourse(db, runner, node, cfg, env, c, r)
    ensures r.p == Moved(c.p, err, HealKey).(now := env.now, node := node.Value())
  {
    hide RunPass;
    Unfold(cfg, c, env);
    r := HealInvalid(cfg, c, env);
    err := 0;
    if node.rotation < NONE || node.rotation > PENDING_LOCAL_RECOVERY {
      err := HealNode(db, cfg, node, env);
    }
  }

  method HealIfMismatched(db: Database, runner: Runner, cfg: Config, node: Node, env: PassEnv, ghost c: Conf)
    returns (err: int)
    requires Tracks(runner, node, c) && c.w.rows == db.rows
    modifies db, node
    ensures var r := HealMismatch(cfg, c, env);
            Tracks(runner, node, r) && r.w.rows == db.rows && (err == 0 || err == -1)
            && r.p.at == if err == 0 then Decide else MarkError
  {
    err := 0;
    if node.rotation != NONE && (node.pending == "" || node.xorKey != node.pending) {
      err := HealNode(db, cfg, node, env);
    }
  }

  method HealMismatchedKey(db: Database, runner: Runner, cfg: Config, node: Node, env: PassEnv, ghost c: Conf)
    returns (err: int, ghost r: Conf)
    requires OnCourse(db, runner, node, cfg, env, c, c) && c.p.at == HealKey
    modifies db, node
    ensures OnCourse(db, runner, node, cfg, env, c, r)
    ensures r.p == Moved(c.p, err, Decide).(node := node.Value())
  {
    err := HealIfMismatched(db, runner, cfg, node, env, c);
    r := HealMismatchStep(cfg, c, env);
  }

  lemma HealMismatchStep(cfg: Config, c: Conf, env: PassEnv) returns (r: Conf)
    requires c.p.at == HealKey
    ensures r == HealMismatch(cfg, c, env) && RunPass(cfg, r, env) == RunPass(cfg, c, env)
    ensures r.p == Moved(c.p, if r.p.at == Decide then 0 else -1, Decide).(node := r.p.node)
  {
    hide RunPass;
    r := HealMismatch(cfg, c, env);
    Unfold(cfg, c, env);
  }

  /** Begins a rotation of the key, in row and memory alike or not at all. */
  method RotateNode(db: Database, node: Node, env: PassEnv) returns (err: int)
    modifies db, node
    ensures env.freshKey.None? ==> err == -1 && db.rows == old(db.rows) && node.Value() == old(node.Value())
    ensures env.freshKey.Some? ==>
              var key := env.freshKey.value;
              && Ran(err, Sql.Commit(env.beginOk, Sql.BeginRotation(old(db.rows), node.key, key)),
                     old(db.rows), db.rows)
              && node.Value() == if err == 0 then Renewed(old(node.Value()), key) else old(node.Value())
  {
    if env.freshKey.None? {
      return -1;
    }
    err := db.BeginRotation(node.key, env.freshKey.value, env.beginOk);
    if err != 0 {
      return;
    }
    node.xorKey := env.freshKey.value;
    node.rotation := PENDING_REMOTE;
    node.pending := env.freshKey.value;
  }

  /** Resumes, seeds, expires or leaves the node. */
  method DecideLifetime(db: Database, runner: Runner, cfg: Config, node: Node, now: int, force0: bool, env: PassEnv,
                        ghost c: Conf)
    returns (err: int, force: bool, expired: bool)
    requires Tracks(runner, node, c) && c.w.rows == db.rows
    requires c.p.now == now && c.p.force == force0 && !c.p.expired
    modifies db, node
    ensures var r := Expire(cfg, c, env);
            Tracks(runner, node, r) && r.w.rows == db.rows && (err == 0 || err == -1)
            && r.p.at == (if err == 0 then Detect else MarkError) && r.p.force == force && r.p.expired == expired
  {
    force, expired, err := force0, false, 0;
    if node.rotation == PENDING_LOCAL_RECOVERY {
      force, expired := true, true;
    } else if node.rotation == PENDING_REMOTE {
      force, expired := true, true;
    } else if now < MIN_SANE_TIME {
    } else if node.lifetime > 0 && node.lastApplied == 0 {
      force, expired := true, true;
    } else if node.lifetime > 0 && now - node.lastApplied >= node.lifetime {
      force, expired := true, true;
      if cfg.enableXor && node.xorKey != "" {
        err := RotateNode(db, node, env);
      }
    }
  }

  method CheckLifetime(db: Database, runner: Runner, cfg: Config, node: Node, now: int, force0: bool, env: PassEnv,
                       ghost c: Conf)
    returns (err: int, force: bool, expired: bool, ghost r: Conf)
    requires OnCourse(db, runner, node, cfg, env, c, c) && c.p.at == Decide
    requires c.p.now == now && c.p.force == force0 && !c.p.expired
    modifies db, node
    ensures OnCourse(db, runner, node, cfg, env, c, r)
    ensures r.p == Moved(c.p, err, Detect).(node := node.Value(), force := force, expired := expired)
  {
    err, force, expired := DecideLifetime(db, runner, cfg, node, now, force0, env, c);
    r := ExpireStep(cfg, c, env);
  }

  lemma ExpireStep(cfg: Config, c: Conf, env: PassEnv) returns (r: Conf)
    requires c.p.at == Decide
    ensures r == Expire(cfg, c, env) && RunPass(cfg, r, env) == RunPass(cfg, c, env)
    ensures r.p == Moved(c.p, if r.p.at == Detect then 0 else -1, Detect)
                   .(node := r.p.node, force := r.p.force, expired := r.p.expired)
  {
    hide RunPass;
    r := Expire(cfg, c, env);
    Unfold(cfg, c, env);
  }

  /** After an acknowledged server-add: moves a pending rotation to its local half. */
  method ConfirmServer(db: Database, runner: Runner, cfg: Config, node: Node, env: PassEnv, ghost c: Conf)
    returns (err: int, ghost r: Conf)
    requires OnCourse(db, runner, node, cfg, env, c, c) && c.p.at == Confirm
    modifies db, node
    ensures OnCourse(db, runner, node, cfg, env, c, r)
    ensures r.p == Moved(c.p, err, Label.ClientDel).(node := node.Value(), applied := true)
  {
    hide RunPass;
    Unfold(cfg, c, env);
    r := ConfirmSent(c, env);
    err := 0;
    if node.rotation == PENDING_REMOTE {
      err := db.UpdateRotationState(node.key, PENDING_LOCAL_RECOVERY, env.confirmOk);
      if err != 0 {
        return;
      }
      node.rotation := PENDING_LOCAL_RECOVERY;
    }
  }

  method MarkNodeActive(db: Database, runner: Runner, cfg: Config, node: Node, ip: string, env: PassEnv, ghost c: Conf)
    returns (err: int, ghost r: Conf)
    requires OnCourse(db, runner, node, cfg, env, c, c) && c.p.at == MarkActive && c.p.ip == ip
    modifies db
    ensures OnCourse(db, runner, node, cfg, env, c, r) && r.p == Moved(c.p, err, Finish)
  {
    hide RunPass;
    Unfold(cfg, c, env);
    r := MarkApplied(c, env);
    err := db.UpdateRuntime(node.key, ip, ACTIVE, env.markOk);
  }

  /** Returns row and memory to state 0 alike, or neither. */
  method CompleteNode(db: Database, node: Node, now: int, env: PassEnv) returns (err: int)
    modifies db, node
    ensures Ran(err, Sql.Commit(env.finishOk, Sql.CompleteRotation(old(db.rows), node.key, AppliedStamp(now))),
                old(db.rows), db.rows)
    ensures node.Value() == if err == 0 then Cleared(old(node.Value())).(lastApplied := AppliedStamp(now))
                            else old(node.Value())
  {
    var appliedStamp := if now >= MIN_SANE_TIME then now else 0;
    err := db.CompleteRotation(node.key, appliedStamp, env.finishOk);
    if err != 0 {
      return;
    }
    node.rotation := NONE;
    node.pending := "";
    node.lastApplied := appliedStamp;
  }

  method StampNode(db: Database, node: Node, now: int, env: PassEnv) returns (err: int)
    modifies db, node
    ensures Ran(err, Sql.Commit(env.finishOk, Sql.UpdateApplied(old(db.rows), node.key, now)), old(db.rows), db.rows)
    ensures node.Value() == if err == 0 then old(node.Value()).(lastApplied := now) else old(node.Value())
  {
    err := db.UpdateApplied(node.key, now, env.finishOk);
    if err != 0 {
      return;
    }
    node.lastApplied := now;
  }

  /** Completes the rotation, or stamps an expired node outside one. */
  method FinishNode(db: Database, runner: Runner, cfg: Config, node: Node, now: int, expired: bool, env: PassEnv,
                    ghost c: Conf)
    returns (err: int, ghost r: Conf)
    requires OnCourse(db, runner, node, cfg, env, c, c) && c.p.at == Finish
    requires c.p.now == now && c.p.expired == expired && c.p.applied
    modifies db, node
    ensures OnCourse(db, runner, node, cfg, env, c, r) && r.p == Moved(c.p, err, Returned).(node := node.Value())
  {
    hide RunPass;
    r := CompleteStep(cfg, c, env);
    err := 0;
    if node.rotation != NONE {
      err := CompleteNode(db, node, now, env);
    } else if expired {
      err := StampNode(db, node, now, env);
    }
  }

  lemma CompleteStep(cfg: Config, c: Conf, env: PassEnv) returns (r: Conf)
    requires c.p.at == Finish
    ensures r == Complete(c, env) && RunPass(cfg, r, env) == RunPass(cfg, c, env)
  {
    hide RunPass;
    r := Complete(c, env);
    Unfold(cfg, c, env);
  }

  /** Everything up to IP detection. */
  method PrepareNode(db: Database, runner: Runner, cfg: Config, node: Node, force0: bool, env: PassEnv, ghost c0: Conf)
    returns (err: int, force: bool, expired: bool, ghost c: Conf)
    requires c0.p == StartPass(node.key, node.Value(), force0) && OnCourse(db, runner, node, cfg, env, c0, c0)
    modifies db, node
    ensures OnCourse(db, runner, node, cfg, env, c0, c)
    ensures c.p == Moved(c0.p, err, Detect).(node := node.Value(), now := env.now, force := force, expired := expired)
  {
    force, expired := force0, false;
    err, c := HealInvalidState(db, runner, cfg, node, env, c0);
    if err != 0 {
      return;
    }
    err, c := HealMismatchedKey(db, runner, cfg, node, env, c);
    if err != 0 {
      return;
    }
    err, force, expired, c := CheckLifetime(db, runner, cfg, node, env.now, force0, env, c);
  }

  /** Everything from the decision to apply to the end of the pass. */
  method ApplyNode(db: Database, runner: Runner, cfg: Config, node: Node, ip: string, now: int, expired: bool,
                   env: PassEnv, ghost c0: Conf)
    returns (err: int, ghost c: Conf)
    requires OnCourse(db, runner, node, cfg, env, c0, c0) && ip != ""
    requires c0.p.at == if cfg.useClientIp then SendPlaceholder else SendDetected
    requires c0.p.ip == ip && c0.p.now == now && c0.p.expired == expired && c0.p.rc == 0
    modifies db, runner, node
    ensures OnCourse(db, runner, node, cfg, env, c0, c) && c.p.at == (if err == 0 then Returned else MarkError)
    ensures c.p.ip == ip && c.p.rc == err && (err == 0 ==> c.p.applied)
  {
    err, c := runner.ServerAdd(cfg, node, ip, env, c0);
    if err != 0 {
      return;
    }
    err, c := ConfirmServer(db, runner, cfg, node, env, c);
    if err != 0 {
      return;
    }
    err, c := runner.ResetLocalClient(cfg, node, env, c);
    if err != 0 {
      return;
    }
    err, c := MarkNodeActive(db, runner, cfg, node, ip, env, c);
    if err != 0 {
      return;
    }
    err, c := FinishNode(db, runner, cfg, node, now, expired, env, c);
  }

  lemma MarkErrorStep(cfg: Config, c: Conf, env: PassEnv) returns (r: Conf)
    requires c.p.at == MarkError
    ensures r == MarkFailed(c, env) && r == RunPass(cfg, c, env)
  {
    r := MarkFailed(c, env);
    Unfold(cfg, c, env);
  }

  method MarkNodeFailed(db: Database, runner: Runner, cfg: Config, node: Node, ip: string, env: PassEnv, ghost c: Conf)
    returns (ghost r: Conf)
    requires OnCourse(db, runner, node, cfg, env, c, c) && c.p.at == MarkError && c.p.ip == ip
    modifies db
    ensures Tracks(runner, node, r) && r.w.rows == db.rows && r == RunPass(cfg, c, env) && r.p.rc == c.p.rc
  {
    var _ := db.UpdateRuntime(node.key, if ip != "" then ip else node.currentIp, ERROR, env.errorMarkOk);
    r := MarkErrorStep(cfg, c, env);
  }

  lemma DetectStep(cfg: Config, c: Conf, env: PassEnv) returns (r: Conf)
    requires c.p.at == Detect
    ensures RunPass(cfg, r, env) == RunPass(cfg, c, env) && r.w == c.w
    ensures r.p.ip == if env.detection.Detected? then env.detection.ip else env.detection.leftover
    ensures r.p == c.p.(at := r.p.at, ip := r.p.ip, rc := r.p.rc)
    ensures if env.detection.Undetected? then r.p.at == MarkError && r.p.rc == -1
            else if !NeedApply(c.p, env.detection.ip) then r.p.at == Returned && r.p.rc == c.p.rc
            else if env.detection.ip == "" then r.p.at == MarkError && r.p.rc == -1
            else r.p.at == (if cfg.useClientIp then SendPlaceholder else SendDetected) && r.p.rc == c.p.rc
  {
    hide RunPass;
    r := DetectIp(cfg, c, env);
    Unfold(cfg, c, env);
  }

  /** `tumgrd_reconcile_one`: performs exactly the machine's pass, leaving the node in memory, the
      table and the peers as the machine does, and running the same subprocesses in order. */
  method ReconcileOne(db: Database, runner: Runner, cfg: Config, node: Node, force0: bool, env: PassEnv)
    returns (err: int, ghost p: Pass)
    modifies db, runner, node
    ensures Conf(WorldOf(db, runner), p)
         == RunPass(cfg, Conf(old(WorldOf(db, runner)), StartPass(node.key, old(node.Value()), force0)), env)
    ensures p.rc == err && p.node == node.Value() && p.calls == runner.calls
    ensures err == 0 ==> env.detection == Detected(p.ip)
    ensures err == 0 && !p.applied ==> !force0 && SameText(node.currentIp, p.ip) && node.status !in {ERROR, SYNCING}
  {
    runner.calls := [];
    ghost var c0 := Conf(WorldOf(db, runner), StartPass(node.key, node.Value(), force0));
    ghost var c: Conf;
    ghost var r: Conf;
    var force, expired;
    var ip := "";
    label cleanup: {
      err, force, expired, c := PrepareNode(db, runner, cfg, node, force0, env, c0);
      if err != 0 {
        break cleanup;
      }
      ghost var decided := c;
      c := DetectStep(cfg, c, env);
      match env.detection {
        case Undetected(leftover) =>
          ip, err := leftover, -1;
          break cleanup;
        case Detected(found) =>
          ip := found;
      }
      var ipChanged := !SameText(node.currentIp, ip);
      var wasError := node.status == ERROR || node.status == SYNCING;
      if !(force || ipChanged || wasError) {
        return 0, c.p;
      }
      if ip == "" {
        err := -1;
        break cleanup;
      }
      err, c := ApplyNode(db, runner, cfg, node, ip, env.now, expired, env, c);
    }
    if err != 0 {
      r := MarkNodeFailed(db, runner, cfg, node, ip, env, c);
      return err, r.p;
    }
    p := c.p;
    assert c == RunPass(cfg, c, env);
  }

  /** The rest of a sweep from `w` ends as `total` does, after the passes that returned `rcs`. */
  ghost predicate Remaining(cfg: Config, w: World, queue: seq<Queued>, force: bool, envs: seq<PassEnv>,
                            rcs: seq<int>, total: Sweep)
    requires |envs| == |queue|
  {
    var rest := RunAll(cfg, w, queue, force, envs);
    rest.w == total.w && rcs + rest.rcs == total.rcs
  }

  lemma SweepEnds(cfg: Config, w: World, queue: seq<Queued>, force: bool, envs: seq<PassEnv>, rcs: seq<int>,
                  total: Sweep)
    requires queue == [] && envs == [] && Remaining(cfg, w, queue, force, envs, rcs, total)
    ensures w == total.w && rcs == total.rcs
  {
  }

  /** One turn of the loop: a pass over the head of the queue. */
  method SweepNode(db: Database, runner: Runner, cfg: Config, key: Key, row: Row, force: bool, env: PassEnv,
                   ghost queue: seq<Queued>, ghost envs: seq<PassEnv>, ghost rcs: seq<int>, ghost total: Sweep)
    returns (err: int)
    requires |envs| == |queue| && queue != [] && queue[0] == Queued(key, row) && envs[0] == env
    requires Remaining(cfg, WorldOf(db, runner), queue, force, envs, rcs, total)
    modifies db, runner
    ensures Remaining(cfg, WorldOf(db, runner), queue[1..], force, envs[1..], rcs + [err], total)
  {
    ghost var w := WorldOf(db, runner);
    var node := new Node(key, row);
    ghost var p: Pass;
    err, p := ReconcileOne(db, runner, cfg, node, force, env);
    ghost var rest := RunAll(cfg, WorldOf(db, runner), queue[1..], force, envs[1..]);
    assert RunAll(cfg, w, queue, force, envs) == Sweep(rest.w, [err] + rest.rcs);
    assert rcs + ([err] + rest.rcs) == rcs + [err] + rest.rcs;
  }

  /** `tumgrd_reconcile_all`: lists the table, runs one pass per node whatever the others return,
      and returns 0 exactly when the listing succeeded and no pass failed. */
  method ReconcileAll(db: Database, runner: Runner, cfg: Config, force: bool, order: seq<Key>, nows: seq<int>,
                      listOk: bool, envs: seq<PassEnv>)
    returns (err: int)
    requires Lists(order, db.rows) && |nows| == |order| && |envs| == |order|
    modifies db, runner
    ensures !listOk ==> err == -1 && WorldOf(db, runner) == old(WorldOf(db, runner))
    ensures listOk ==>
              var sweep := RunAll(cfg, old(WorldOf(db, runner)), LoadAll(old(db.rows), order, nows), force, envs);
              WorldOf(db, runner) == sweep.w && err == if Failures(sweep.rcs) == 0 then 0 else -1
  {
    var rc, rows := db.ListNodes(order, nows, listOk);
    if rc != 0 {
      return -1;
    }
    ghost var queue := LoadAll(db.rows, order, nows);
    ghost var total := RunAll(cfg, WorldOf(db, runner), queue, force, envs);
    ghost var rcs := [];
    var i, failed := 0, 0;
    while i < |order|
      invariant 0 <= i <= |order| && |rcs| == i && failed >= 0
      invariant Remaining(cfg, WorldOf(db, runner), queue[i..], force, envs[i..], rcs, total)
      invariant failed == Failures(rcs)
    {
      assert queue[i..][1..] == queue[i + 1..] && envs[i..][1..] == envs[i + 1..];
      var one := SweepNode(db, runner, cfg, order[i], rows[i], force, envs[i], queue[i..], envs[i..], rcs, total);
      if one != 0 {
        failed := failed + 1;
      }
      assert (rcs + [one])[..|rcs|] == rcs;
      rcs := rcs + [one];
      i := i + 1;
    }
    SweepEnds(cfg, WorldOf(db, runner), queue[i..], force, envs[i..], rcs, total);
    err := if failed != 0 then -1 else 0;
  }
}
