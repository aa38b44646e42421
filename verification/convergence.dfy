/** One forced pass in a cooperating environment repairs any node, whatever its row and its peers hold. */
module Convergence {
  import opened Types
  import Sql
  import opened Protocol
  import opened PassSafety
  import opened System
  import opened SystemSafety

  /** Key generation and every statement succeed, an address is detected, and the calls the pass
      makes are acknowledged; failures the pass tolerates are allowed: an older server that does
      not know the address placeholder, and a client entry that cannot be deleted. */
  predicate Cooperates(env: PassEnv) {
    && env.freshKey.Some? && env.healOk && env.beginOk && env.confirmOk && env.markOk && env.finishOk
    && env.detection.Detected? && env.detection.ip != ""
    && !TimedOut(env.placeholder) && env.detected.Acked?
    && !TimedOut(env.clientDel) && env.clientAdd.Acked?
  }

  /** The rotation in the row is none that the protocol leaves. */
  predicate Corrupt(n: Row) {
    n.rotation < 0 || n.rotation > 2 || (n.rotation != 0 && (n.pending == "" || n.pending != n.xorKey))
  }

  predicate Resumes(n: Row) {
    n.rotation != 0 && !Corrupt(n)
  }

  predicate Aged(n: Row, now: int) {
    now >= MIN_SANE_TIME && n.lifetime > 0 && now - n.lastApplied >= n.lifetime
  }

  /** The pass generates a key: to replace a corrupt rotation, or because the key aged out. */
  predicate Rekeys(cfg: Config, n: Row, now: int) {
    && cfg.enableXor && n.xorKey != ""
    && (Corrupt(n) || (n.rotation == 0 && n.lastApplied != 0 && Aged(n, now)))
  }

  predicate Seeds(n: Row, now: int) {
    now >= MIN_SANE_TIME && n.lifetime > 0 && (n.lastApplied == 0 || now - n.lastApplied >= n.lifetime)
  }

  /** The row a cooperating pass that applies leaves behind, in closed form. */
  function Repaired(cfg: Config, r: Row, n: Row, env: PassEnv): Row
    requires Cooperates(env)
  {
    var rotated := Rekeys(cfg, n, env.now) || Resumes(n);
    r.(currentIp := env.detection.ip, status := ACTIVE, rotation := 0,
       xorKey := if Rekeys(cfg, n, env.now) then env.freshKey.value else r.xorKey,
       pending := if rotated || Corrupt(n) then "" else r.pending,
       lastApplied := if rotated then (if env.now >= MIN_SANE_TIME then env.now else 0)
                      else if Seeds(n, env.now) then env.now
                      else r.lastApplied)
  }

  /** The row once the pass has healed it, resumed or started a rotation. */
  function Readied(cfg: Config, r: Row, n: Row, env: PassEnv): Row
    requires Cooperates(env)
  {
    if Rekeys(cfg, n, env.now) then Renewed(r, env.freshKey.value)
    else if Corrupt(n) then Cleared(r)
    else r
  }

  predicate ReadiedAt(cfg: Config, c: Conf, c': Conf, env: PassEnv)
    requires c.p.key in c.w.rows && Cooperates(env)
  {
    var r, n := c.w.rows[c.p.key], c.p.node;
    && c'.w.rows == c.w.rows[c.p.key := Readied(cfg, r, n, env)]
    && c'.w.server == c.w.server && c'.w.kernel == c.w.kernel
    && var expired := Rekeys(cfg, n, env.now) || Resumes(n) || Seeds(n, env.now);
       c'.p == c.p.(at := Detect, node := Readied(cfg, n, n, env), now := env.now,
                    expired := expired, force := c.p.force || expired)
  }

  predicate AtStart(c: Conf) {
    c.p.key in c.w.rows && c.p == StartPass(c.p.key, c.p.node, c.p.force) && Coherent(c.p.node, c.w.rows[c.p.key])
  }

  lemma HealsState(cfg: Config, c: Conf, env: PassEnv) returns (c': Conf)
    requires AtStart(c) && Cooperates(env)
    ensures c' == PassStep(cfg, c, env) && c'.p.at == HealKey
    ensures var r, n := c.w.rows[c.p.key], c.p.node;
            var bad := InvalidState(n);
            && c'.p == c.p.(at := HealKey, now := env.now,
                            node := if !bad then n
                                    else if Rotates(cfg, n) then Renewed(n, env.freshKey.value) else Cleared(n))
            && c'.w == c.w.(rows := c.w.rows[c.p.key :=
                 if !bad then r else if Rotates(cfg, n) then Renewed(r, env.freshKey.value) else Cleared(r)])
  {
    c' := PassStep(cfg, c, env);
  }

  lemma HealsKey(cfg: Config, c: Conf, env: PassEnv) returns (c': Conf)
    requires c.p.at == HealKey && c.p.key in c.w.rows && Cooperates(env)
    ensures c' == PassStep(cfg, c, env) && c'.p.at == Decide
    ensures var r, n := c.w.rows[c.p.key], c.p.node;
            var bad := n.rotation != NONE && PendingBroken(n);
            && c'.p == c.p.(at := Decide,
                            node := if !bad then n
                                    else if Rotates(cfg, n) then Renewed(n, env.freshKey.value) else Cleared(n))
            && c'.w == c.w.(rows := c.w.rows[c.p.key :=
                 if !bad then r else if Rotates(cfg, n) then Renewed(r, env.freshKey.value) else Cleared(r)])
  {
    c' := PassStep(cfg, c, env);
  }

  lemma Decides(cfg: Config, c: Conf, env: PassEnv) returns (c': Conf)
    requires c.p.at == Decide && c.p.key in c.w.rows && !c.p.expired && Cooperates(env)
    requires !Corrupt(c.p.node) && c.p.node.rotation == c.w.rows[c.p.key].rotation
    ensures c' == PassStep(cfg, c, env) && c'.p.at == Detect
    ensures var r, n, now := c.w.rows[c.p.key], c.p.node, c.p.now;
            var aged := n.rotation == NONE && now >= MIN_SANE_TIME && n.lastApplied != 0
                        && AgedOut(n, now) && Rotates(cfg, n);
            && c'.p == c.p.(at := Detect, node := if aged then Renewed(n, env.freshKey.value) else n,
                            expired := n.rotation != NONE || Seeds(n, now),
                            force := c.p.force || n.rotation != NONE || Seeds(n, now))
            && c'.w == c.w.(rows := c.w.rows[c.p.key := if aged then Renewed(r, env.freshKey.value) else r])
  {
    c' := PassStep(cfg, c, env);
  }

  lemma Readies(cfg: Config, c: Conf, env: PassEnv) returns (c': Conf)
    requires AtStart(c) && Cooperates(env)
    ensures ReadiedAt(cfg, c, c', env) && RunPass(cfg, c, env) == RunPass(cfg, c', env)
  {
    hide RunPass;
    var c1 := HealsState(cfg, c, env);
    var c2 := HealsKey(cfg, c1, env);
    c' := Decides(cfg, c2, env);
    Unfold(cfg, c, env);
    Unfold(cfg, c1, env);
    Unfold(cfg, c2, env);
  }

  /** The pass has a reason to apply. */
  predicate Called(force: bool, n: Row, ip: string) {
    force || Marked(n) || !SameText(n.currentIp, ip)
  }

  predicate ReadyToApply(c: Conf, ip: string) {
    && c.p.key in c.w.rows && c.p.at == Detect && Called(c.p.force, c.p.node, ip) && !c.p.applied && c.p.rc == 0
    && !InvalidState(c.p.node) && Coherent(c.p.node, c.w.rows[c.p.key])
  }

  /** The placeholder where it is configured and the server takes it, else the detected address. */
  function SentAddress(cfg: Config, env: PassEnv): Address
    requires env.detection.Detected?
  {
    if cfg.useClientIp && env.placeholder.Acked? then ClientIp else Literal(env.detection.ip)
  }

  lemma Sends(cfg: Config, c: Conf, env: PassEnv) returns (c': Conf)
    requires Cooperates(env) && ReadyToApply(c, env.detection.ip)
    ensures RunPass(cfg, c, env) == RunPass(cfg, c', env)
    ensures c'.w.rows == c.w.rows && c'.w.kernel == c.w.kernel && SameExcept(c.w.server, c'.w.server, ServerOf(c.p.key))
    ensures ServerHolds(cfg, c'.w, c.p.key, c.w.rows[c.p.key], env.detection.ip)
    ensures c'.w.server[ServerOf(c.p.key)].address == SentAddress(cfg, env)
    ensures c'.p == c.p.(at := Confirm, ip := env.detection.ip, calls := c'.p.calls)
  {
    hide RunPass;
    c' := Detects(cfg, c, env);
    Unfold(cfg, c, env);
    if cfg.useClientIp {
      var c1 := c';
      c' := SendAsClient(c1, env);
      Unfold(cfg, c1, env);
    }
    if c'.p.at == SendDetected {
      var c2 := c';
      c' := SendIp(c2, env);
      Unfold(cfg, c2, env);
    }
  }

  lemma Detects(cfg: Config, c: Conf, env: PassEnv) returns (c': Conf)
    requires Cooperates(env) && ReadyToApply(c, env.detection.ip)
    ensures c' == PassStep(cfg, c, env) && c'.w == c.w
    ensures c'.p == c.p.(at := if cfg.useClientIp then SendPlaceholder else SendDetected, ip := env.detection.ip)
  {
    c' := PassStep(cfg, c, env);
  }

  /** The phase a node is in once its server entry is confirmed. */
  function Confirmed(n: Row): Row {
    if n.rotation == PENDING_REMOTE then n.(rotation := PENDING_LOCAL_RECOVERY) else n
  }

  lemma Confirms(cfg: Config, c: Conf, env: PassEnv) returns (c': Conf)
    requires c.p.at == Confirm && c.p.key in c.w.rows && Cooperates(env)
    requires c.p.node.rotation == c.w.rows[c.p.key].rotation
    ensures c' == PassStep(cfg, c, env)
    ensures c'.w == c.w.(rows := c.w.rows[c.p.key := Confirmed(c.w.rows[c.p.key])])
    ensures c'.p == c.p.(at := ClientDel, applied := true, node := Confirmed(c.p.node))
  {
    c' := PassStep(cfg, c, env);
  }

  lemma ResetsClient(cfg: Config, c: Conf, env: PassEnv) returns (c': Conf)
    requires c.p.at == ClientDel && Cooperates(env)
    ensures RunPass(cfg, c, env) == RunPass(cfg, c', env)
    ensures c'.w.rows == c.w.rows && c'.w.server == c.w.server && SameExcept(c.w.kernel, c'.w.kernel, ClientOf(c.p.key))
    ensures KernelHolds(c'.w, c.p.key, c.p.node)
    ensures c'.p == c.p.(at := MarkActive, calls := c'.p.calls)
  {
    var c1 := PassStep(cfg, c, env);
    c' := PassStep(cfg, c1, env);
    Unfold(cfg, c, env);
    Unfold(cfg, c1, env);
  }

  function Closed(r: Row, p: Pass): Row {
    r.(currentIp := p.ip, status := ACTIVE, rotation := NONE,
       pending := if r.rotation != NONE then "" else r.pending,
       lastApplied := if r.rotation != NONE then (if p.now >= MIN_SANE_TIME then p.now else 0)
                      else if p.expired then p.now else r.lastApplied)
  }

  lemma Closes(cfg: Config, c: Conf, env: PassEnv) returns (c': Conf)
    requires c.p.at == MarkActive && c.p.key in c.w.rows && c.p.applied && Cooperates(env)
    requires c.p.node.rotation == c.w.rows[c.p.key].rotation && c.p.node.pending == c.w.rows[c.p.key].pending
    ensures c' == RunPass(cfg, c, env)
    ensures c'.w == c.w.(rows := c.w.rows[c.p.key := Closed(c.w.rows[c.p.key], c.p)])
    ensures c'.p.rc == c.p.rc && c'.p.applied
    ensures c'.p.node.rotation == NONE && c'.p.node.xorKey == c.p.node.xorKey
    ensures c'.p.node.pending == c'.w.rows[c.p.key].pending
  {
    var c1 := MarksActive(cfg, c, env);
    c' := Completes(cfg, c1, env);
    Unfold(cfg, c, env);
    Unfold(cfg, c1, env);
  }

  lemma MarksActive(cfg: Config, c: Conf, env: PassEnv) returns (c': Conf)
    requires c.p.at == MarkActive && c.p.key in c.w.rows && Cooperates(env)
    ensures c' == PassStep(cfg, c, env) && c'.p == c.p.(at := Finish)
    ensures c'.w == c.w.(rows := c.w.rows[c.p.key := c.w.rows[c.p.key].(currentIp := c.p.ip, status := ACTIVE)])
  {
    c' := PassStep(cfg, c, env);
  }

  lemma Completes(cfg: Config, c: Conf, env: PassEnv) returns (c': Conf)
    requires c.p.at == Finish && c.p.key in c.w.rows && c.p.applied && Cooperates(env)
    requires c.p.node.rotation == c.w.rows[c.p.key].rotation && c.p.node.pending == c.w.rows[c.p.key].pending
    requires c.w.rows[c.p.key].status == ACTIVE && c.w.rows[c.p.key].currentIp == c.p.ip
    ensures c' == PassStep(cfg, c, env) && c'.p.at == Returned && c'.p.rc == c.p.rc && c'.p.applied
    ensures c'.w == c.w.(rows := c.w.rows[c.p.key := Closed(c.w.rows[c.p.key], c.p)])
    ensures c'.p.node.rotation == NONE && c'.p.node.xorKey == c.p.node.xorKey
    ensures c'.p.node.pending == c'.w.rows[c.p.key].pending
  {
    c' := PassStep(cfg, c, env);
  }

  predicate RepairedBy(cfg: Config, c: Conf, f: Conf, env: PassEnv)
    requires c.p.key in c.w.rows && Cooperates(env)
  {
    var k := c.p.key;
    && f.p.rc == 0 && f.p.applied && OnlyAt(c.w, f.w, k)
    && f.w.rows[k] == Repaired(cfg, c.w.rows[k], c.p.node, env)
    && Matches(cfg, f.w, k) && f.w.server[ServerOf(k)].address == SentAddress(cfg, env)
    && f.p.node.rotation == NONE && f.p.node.xorKey == f.w.rows[k].xorKey && f.p.node.pending == f.w.rows[k].pending
  }

  lemma Applies(cfg: Config, c: Conf, env: PassEnv) returns (f: Conf)
    requires Cooperates(env) && ReadyToApply(c, env.detection.ip)
    ensures f == RunPass(cfg, c, env) && f.p.rc == 0 && f.p.applied && OnlyAt(c.w, f.w, c.p.key)
    ensures f.w.rows[c.p.key] == Closed(c.w.rows[c.p.key], c.p.(ip := env.detection.ip))
    ensures Matches(cfg, f.w, c.p.key) && f.w.server[ServerOf(c.p.key)].address == SentAddress(cfg, env)
    ensures f.p.node.rotation == NONE && f.p.node.xorKey == c.p.node.xorKey
    ensures f.p.node.pending == f.w.rows[c.p.key].pending
  {
    hide RunPass;
    var c1 := Sends(cfg, c, env);
    var c2 := Confirms(cfg, c1, env);
    Unfold(cfg, c1, env);
    var c3 := ResetsClient(cfg, c2, env);
    f := Closes(cfg, c3, env);
  }

  /** Convergence: from any row, however corrupt, and any contents of the two peers, a pass in a
      cooperating environment that is forced, finds the node marked or detects another address
      returns 0 with the row settled, both ends written from it, memory in step with it, and every
      other node untouched. */
  lemma Converges(cfg: Config, w: World, k: Key, node: Row, force: bool, env: PassEnv)
    requires k in w.rows && Coherent(node, w.rows[k]) && Cooperates(env) && Called(force, node, env.detection.ip)
    ensures var c := Conf(w, StartPass(k, node, force)); RepairedBy(cfg, c, RunPass(cfg, c, env), env)
  {
    var c := Conf(w, StartPass(k, node, force));
    hide RunPass;
    var c1 := Readies(cfg, c, env);
    var f := Applies(cfg, c1, env);
  }

  /** On a sane clock such a pass leaves no key that has outlived its lifetime. */
  lemma RepairedKeyIsYoung(cfg: Config, w: World, k: Key, loadedAt: nat, force: bool, env: PassEnv)
    requires k in w.rows && RowOk(w.rows[k]) && w.rows[k].lifetime != 0 && env.now >= MIN_SANE_TIME
    requires Cooperates(env) && Called(force, w.rows[k], env.detection.ip)
    ensures var f := RunPass(cfg, Conf(w, StartPass(k, Sql.Load(w.rows[k], loadedAt), force)), env);
            k in f.w.rows && env.now - f.w.rows[k].lastApplied < f.w.rows[k].lifetime
  {
    hide RunPass;
    Converges(cfg, w, k, Sql.Load(w.rows[k], loadedAt), force, env);
  }

  // ---- reconcile_all -------------------------------------------------------------------------

  datatype Sweep = Sweep(w: World, rcs: seq<int>)

  /** `tumgrd_reconcile_all` over a listed queue: one pass per node, failures notwithstanding. */
  function RunAll(cfg: Config, w: World, queue: seq<Queued>, force: bool, envs: seq<PassEnv>): (r: Sweep)
    requires |envs| == |queue|
    ensures |r.rcs| == |queue|
    decreases |queue|
  {
    if queue == [] then Sweep(w, [])
    else
      var f := RunPass(cfg, Conf(w, StartPass(queue[0].key, queue[0].node, force)), envs[0]);
      var rest := RunAll(cfg, f.w, queue[1..], force, envs[1..]);
      Sweep(rest.w, [f.p.rc] + rest.rcs)
  }

  function Failures(rcs: seq<int>): nat {
    if rcs == [] then 0 else Failures(rcs[..|rcs| - 1]) + (if rcs[|rcs| - 1] != 0 then 1 else 0)
  }

  lemma {:induction false} NoFailures(rcs: seq<int>)
    ensures Failures(rcs) == 0 <==> forall i | 0 <= i < |rcs| :: rcs[i] == 0
  {
    if rcs != [] {
      NoFailures(rcs[..|rcs| - 1]);
      assert forall i | 0 <= i < |rcs| - 1 :: rcs[i] == rcs[..|rcs| - 1][i];
    }
  }

  lemma {:induction false} PassFrame(cfg: Config, c: Conf, env: PassEnv)
    ensures OnlyAt(c.w, RunPass(cfg, c, env).w, c.p.key)
    decreases Rank(c.p.at)
  {
    if c.p.at != Returned {
      StepFrame(cfg, c, env);
      PassFrame(cfg, PassStep(cfg, c, env), env);
    }
  }

  /** A step never touches the operator's settings in the row, and the only key it installs is the
      freshly generated one. */
  predicate SettingsKept(c: Conf, r: Conf, env: PassEnv) {
    && c.p.key in c.w.rows && c.p.key in r.w.rows && RowKept(c.w.rows[c.p.key], r.w.rows[c.p.key], env)
  }

  predicate RowKept(r: Row, r': Row, env: PassEnv) {
    && r'.clientPort == r.clientPort && r'.settings == r.settings && r'.lifetime == r.lifetime
    && (r'.xorKey == r.xorKey || env.freshKey == Some(r'.xorKey))
  }

  lemma StepKeepsRow(cfg: Config, c: Conf, env: PassEnv)
    requires c.p.key in c.w.rows
    ensures var w' := PassStep(cfg, c, env).w;
            c.p.key in w'.rows && RowKept(c.w.rows[c.p.key], w'.rows[c.p.key], env)
  {
    hide Heal, Expire;
    if c.p.at == Decide {
      ExpireKeepsRow(cfg, c, env);
    } else if c.p.at == HealState || c.p.at == HealKey {
      HealKeepsRow(cfg, c.(p := c.p.(now := env.now)), env, if c.p.at == HealState then HealKey else Decide);
      HealKeepsRow(cfg, c, env, if c.p.at == HealState then HealKey else Decide);
    }
  }

  lemma HealKeepsRow(cfg: Config, c: Conf, env: PassEnv, next: Label)
    requires c.p.key in c.w.rows
    ensures var w' := Heal(cfg, c, env, next).w;
            c.p.key in w'.rows && RowKept(c.w.rows[c.p.key], w'.rows[c.p.key], env)
  {
  }

  lemma ExpireKeepsRow(cfg: Config, c: Conf, env: PassEnv)
    requires c.p.key in c.w.rows
    ensures var w' := Expire(cfg, c, env).w;
            c.p.key in w'.rows && RowKept(c.w.rows[c.p.key], w'.rows[c.p.key], env)
  {
  }

  /** Nor does a whole pass. */
  lemma {:induction false} PassKeepsSettings(cfg: Config, c: Conf, env: PassEnv)
    requires c.p.key in c.w.rows
    ensures SettingsKept(c, RunPass(cfg, c, env), env)
    decreases Rank(c.p.at)
  {
    if c.p.at != Returned {
      StepKeepsRow(cfg, c, env);
      PassKeepsSettings(cfg, PassStep(cfg, c, env), env);
    }
  }

  predicate AwayFrom(queue: seq<Queued>, k: Key) {
    forall i | 0 <= i < |queue| :: queue[i].key != k
  }

  predicate ApartFrom(queue: seq<Queued>, k: Key) {
    forall i | 0 <= i < |queue| :: queue[i].key != k && !Shares(queue[i].key, k)
  }

  /** A sweep leaves the row of a node outside its queue alone, and its entries at the peers too
      unless a node in the queue shares one. */
  lemma {:induction false} SweepFrame(cfg: Config, w: World, queue: seq<Queued>, force: bool, envs: seq<PassEnv>,
                                      k: Key)
    requires |envs| == |queue| && AwayFrom(queue, k) && k in w.rows
    ensures var w' := RunAll(cfg, w, queue, force, envs).w;
            k in w'.rows && w'.rows[k] == w.rows[k] && (ApartFrom(queue, k) ==> SamePeers(w, w', k))
    decreases |queue|
  {
    if queue != [] {
      var c := Conf(w, StartPass(queue[0].key, queue[0].node, force));
      var f := RunPass(cfg, c, envs[0]);
      PassFrame(cfg, c, envs[0]);
      if !SamePeers(w, f.w, k) { OnlySharersNotice(w, f.w, queue[0].key, k); }
      SweepFrame(cfg, f.w, queue[1..], force, envs[1..], k);
    }
  }

  lemma QueueStaysFresh(queue: seq<Queued>, w: World, w': World)
    requires queue != [] && QueueOk(queue, w.rows) && OnlyAt(w, w', queue[0].key)
    ensures QueueOk(queue[1..], w'.rows) && AwayFrom(queue[1..], queue[0].key)
    ensures forall i | 0 < i < |queue| ::
              queue[i].key in w.rows && queue[i].key in w'.rows && w'.rows[queue[i].key] == w.rows[queue[i].key]
  {
    forall i | 0 <= i < |queue| - 1 ensures Fresh(queue[1..][i], w'.rows) {
      assert Fresh(queue[i + 1], w.rows) && queue[0].key != queue[i + 1].key;
    }
  }

  /** A forced sweep repairs every listed node whose own environment cooperates, whatever happens to
      the others: the row always, and both ends unless a node listed later shares an entry. */
  lemma {:induction false} SweepConverges(cfg: Config, w: World, queue: seq<Queued>, envs: seq<PassEnv>, i: nat)
    requires |envs| == |queue| && QueueOk(queue, w.rows) && i < |queue| && Cooperates(envs[i])
    ensures var r, k := RunAll(cfg, w, queue, true, envs), queue[i].key;
            && r.rcs[i] == 0 && k in w.rows && k in r.w.rows
            && r.w.rows[k] == Repaired(cfg, w.rows[k], queue[i].node, envs[i])
            && (ApartFrom(queue[i + 1..], k) ==> Matches(cfg, r.w, k))
    decreases |queue|
  {
    var k := queue[i].key;
    var c := Conf(w, StartPass(queue[0].key, queue[0].node, true));
    var f := RunPass(cfg, c, envs[0]);
    assert Fresh(queue[0], w.rows) && Fresh(queue[i], w.rows);
    PassFrame(cfg, c, envs[0]);
    QueueStaysFresh(queue, w, f.w);
    if i == 0 {
      Converges(cfg, w, k, queue[0].node, true, envs[0]);
      SweepFrame(cfg, f.w, queue[1..], true, envs[1..], k);
    } else {
      SweepConverges(cfg, f.w, queue[1..], envs[1..], i - 1);
      assert queue[1..][i..] == queue[i + 1..];
    }
  }
}
