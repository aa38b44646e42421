/** One reconcile pass as a small-step machine. Each label is a point between two external
    effects of `tumgrd_reconcile_one`, so a process death between any two effects is a pass
    abandoned at some label. */
module Protocol {
  import opened Types
  import Sql

  datatype Label =
    | HealState | HealKey | Decide | Detect
    | SendPlaceholder | SendDetected | Confirm
    | ClientDel | ClientAdd | MarkActive | Finish
    | MarkError | Returned

  /** What the environment answers during one pass. A pass reads each field at most once. */
  datatype PassEnv = PassEnv(now: int, freshKey: Option<FreshKey>, healOk: bool, beginOk: bool,
                             detection: Detection, placeholder: Call, detected: Call, confirmOk: bool,
                             clientDel: Call, clientAdd: Call, markOk: bool, finishOk: bool, errorMarkOk: bool)

  /** The locals of a pass. `node` is the in-memory copy, `ip` the detection buffer,
      `applied` is `server_apply_succeeded`, `rc` the return code, `calls` the subprocesses
      run so far and `marked` whether the row was last written by an error mark that committed. */
  datatype Pass = Pass(at: Label, key: Key, node: Row, force: bool, expired: bool, now: int, ip: string,
                       calls: seq<Call>, applied: bool, rc: int, marked: bool)

  datatype Conf = Conf(w: World, p: Pass)

  function StartPass(k: Key, node: Row, force: bool): Pass {
    Pass(HealState, k, node, force, false, 0, "", [], false, 0, false)
  }

  function Rank(l: Label): nat {
    match l
    case HealState => 12
    case HealKey => 11
    case Decide => 10
    case Detect => 9
    case SendPlaceholder => 8
    case SendDetected => 7
    case Confirm => 6
    case ClientDel => 5
    case ClientAdd => 4
    case MarkActive => 3
    case Finish => 2
    case MarkError => 1
    case Returned => 0
  }

  predicate PendingBroken(n: Row) {
    n.pending == "" || n.xorKey != n.pending
  }

  predicate InvalidState(n: Row) {
    n.rotation < NONE || n.rotation > PENDING_LOCAL_RECOVERY
  }

  predicate Rotates(cfg: Config, n: Row) {
    cfg.enableXor && n.xorKey != ""
  }

  predicate AgedOut(n: Row, now: int) {
    n.lifetime > 0 && now - n.lastApplied >= n.lifetime
  }

  predicate WasError(n: Row) {
    n.status == ERROR || n.status == SYNCING
  }

  /** The same pass further on: once it is forced it stays forced. */
  predicate Continues(c: Conf, r: Conf) {
    r.p.key == c.p.key && (c.p.force ==> r.p.force)
  }

  function Fail(c: Conf): Conf {
    c.(p := c.p.(at := MarkError, rc := -1))
  }

  function Goto(c: Conf, l: Label): Conf {
    c.(p := c.p.(at := l))
  }

  /** Runs a statement; on commit continues at `next` with memory `node`, else goes to the error exit. */
  function Write(c: Conf, result: Option<Table>, node: Row, next: Label): (r: Conf)
    ensures Continues(c, r) && (r.p.at == next || r.p.at == MarkError)
  {
    if result.Some? then Conf(c.w.(rows := result.value), c.p.(node := node, at := next)) else Fail(c)
  }

  function Renewed(n: Row, key: string): Row {
    n.(xorKey := key, pending := key, rotation := PENDING_REMOTE)
  }

  function Cleared(n: Row): Row {
    n.(rotation := NONE, pending := "")
  }

  /** The statement that repairs a corrupt rotation: a fresh one if keys rotate, else a reset. */
  function Repair(cfg: Config, n: Row, k: Key, t: Table, env: PassEnv): Option<Table> {
    if !Rotates(cfg, n) then Sql.Commit(env.healOk, Sql.ClearRotation(t, k))
    else if env.freshKey.None? then None
    else Sql.Commit(env.healOk, Sql.ReplaceRotation(t, k, env.freshKey.value))
  }

  function Healed(cfg: Config, n: Row, env: PassEnv): Row {
    if Rotates(cfg, n) && env.freshKey.Some? then Renewed(n, env.freshKey.value) else Cleared(n)
  }

  function Heal(cfg: Config, c: Conf, env: PassEnv, next: Label): (r: Conf)
    ensures Continues(c, r) && (r.p.at == next || r.p.at == MarkError)
  {
    Write(c, Repair(cfg, c.p.node, c.p.key, c.w.rows, env), Healed(cfg, c.p.node, env), next)
  }

  function HealInvalid(cfg: Config, c: Conf, env: PassEnv): (r: Conf)
    ensures Continues(c, r) && (r.p.at == HealKey || r.p.at == MarkError)
  {
    var c1 := c.(p := c.p.(now := env.now));
    if InvalidState(c.p.node) then Heal(cfg, c1, env, HealKey) else Goto(c1, HealKey)
  }

  function HealMismatch(cfg: Config, c: Conf, env: PassEnv): (r: Conf)
    ensures Continues(c, r) && (r.p.at == Decide || r.p.at == MarkError)
  {
    if c.p.node.rotation != NONE && PendingBroken(c.p.node) then Heal(cfg, c, env, Decide) else Goto(c, Decide)
  }

  function Expire(cfg: Config, c: Conf, env: PassEnv): (r: Conf)
    ensures Continues(c, r) && (r.p.at == Detect || r.p.at == MarkError)
  {
    if c.p.node.rotation == PENDING_LOCAL_RECOVERY || c.p.node.rotation == PENDING_REMOTE then
      c.(p := c.p.(force := true, expired := true, at := Detect))
    else if c.p.now < MIN_SANE_TIME then
      c.(p := c.p.(at := Detect))
    else if c.p.node.lifetime > 0 && c.p.node.lastApplied == 0 then
      c.(p := c.p.(force := true, expired := true, at := Detect))
    else if AgedOut(c.p.node, c.p.now) then
      var c1 := c.(p := c.p.(force := true, expired := true));
      if !Rotates(cfg, c.p.node) then c1.(p := c1.p.(at := Detect))
      else if env.freshKey.None? then Fail(c1)
      else
        Write(c1, Sql.Commit(env.beginOk, Sql.BeginRotation(c.w.rows, c.p.key, env.freshKey.value)),
              Renewed(c.p.node, env.freshKey.value), Detect)
    else
      c.(p := c.p.(at := Detect))
  }

  predicate NeedApply(p: Pass, ip: string) {
    p.force || !SameText(p.node.currentIp, ip) || WasError(p.node)
  }

  function DetectIp(cfg: Config, c: Conf, env: PassEnv): (r: Conf)
    ensures Continues(c, r) && Rank(r.p.at) < Rank(Detect)
  {
    match env.detection
    case Undetected(leftover) => Fail(c.(p := c.p.(ip := leftover)))
    case Detected(ip) =>
      var c1 := c.(p := c.p.(ip := ip));
      if !NeedApply(c.p, ip) then c1.(p := c1.p.(at := Returned))
      else if ip == "" then Fail(c1)
      else c1.(p := c1.p.(at := if cfg.useClientIp then SendPlaceholder else SendDetected))
  }

  function ServerEntryOf(n: Row, address: Address): ServerEntry {
    ServerEntry(n.clientPort, n.xorKey, n.settings.clientComment, address)
  }

  function KernelEntryOf(n: Row): KernelEntry {
    KernelEntry(n.clientPort, n.xorKey, n.settings.description)
  }

  function SendTo(c: Conf, call: Call, address: Address): Conf {
    Conf(if TookEffect(call) then c.w.(server := c.w.server[ServerOf(c.p.key) := ServerEntryOf(c.p.node, address)])
         else c.w,
         c.p.(calls := c.p.calls + [call]))
  }

  function RunClientDel(c: Conf, call: Call): Conf {
    Conf(if TookEffect(call) then c.w.(kernel := c.w.kernel - {ClientOf(c.p.key)}) else c.w,
         c.p.(calls := c.p.calls + [call]))
  }

  function RunClientAdd(c: Conf, call: Call): Conf {
    Conf(if TookEffect(call) then c.w.(kernel := c.w.kernel[ClientOf(c.p.key) := KernelEntryOf(c.p.node)])
         else c.w,
         c.p.(calls := c.p.calls + [call]))
  }

  function AppliedStamp(now: int): int {
    if now >= MIN_SANE_TIME then now else 0
  }

  function Complete(c: Conf, env: PassEnv): (r: Conf)
    ensures Continues(c, r) && (r.p.at == Returned || r.p.at == MarkError)
  {
    var k, n := c.p.key, c.p.node;
    if n.rotation != NONE && c.p.applied then
      Write(c, Sql.Commit(env.finishOk, Sql.CompleteRotation(c.w.rows, k, AppliedStamp(c.p.now))),
            Cleared(n).(lastApplied := AppliedStamp(c.p.now)), Returned)
    else if c.p.expired && c.p.applied then
      Write(c, Sql.Commit(env.finishOk, Sql.UpdateApplied(c.w.rows, k, c.p.now)),
            n.(lastApplied := c.p.now), Returned)
    else Goto(c, Returned)
  }

  function MarkRuntime(c: Conf, ok: bool, ip: string, status: string): Conf {
    if ok then c.(w := c.w.(rows := Sql.UpdateRuntime(c.w.rows, c.p.key, ip, status))) else c
  }

  function SendAsClient(c: Conf, env: PassEnv): (r: Conf)
    ensures Continues(c, r) && (r.p.at == Confirm || r.p.at == SendDetected || r.p.at == MarkError)
  {
    var c1 := SendTo(c, env.placeholder, ClientIp);
    if env.placeholder.Acked? then Goto(c1, Confirm)
    else if TimedOut(env.placeholder) then Fail(c1)
    else Goto(c1, SendDetected)
  }

  function SendIp(c: Conf, env: PassEnv): (r: Conf)
    ensures Continues(c, r) && (r.p.at == Confirm || r.p.at == MarkError)
  {
    var c1 := SendTo(c, env.detected, Literal(c.p.ip));
    if env.detected.Acked? then Goto(c1, Confirm) else Fail(c1)
  }

  function ConfirmSent(c: Conf, env: PassEnv): (r: Conf)
    ensures Continues(c, r) && (r.p.at == ClientDel || r.p.at == MarkError)
  {
    var c1 := c.(p := c.p.(applied := true));
    if c.p.node.rotation == PENDING_REMOTE then
      Write(c1, Sql.Commit(env.confirmOk, Sql.UpdateRotationState(c.w.rows, c.p.key, PENDING_LOCAL_RECOVERY)),
            c.p.node.(rotation := PENDING_LOCAL_RECOVERY), ClientDel)
    else Goto(c1, ClientDel)
  }

  function DropClient(c: Conf, env: PassEnv): (r: Conf)
    ensures Continues(c, r) && (r.p.at == ClientAdd || r.p.at == MarkError)
  {
    var c1 := RunClientDel(c, env.clientDel);
    if TimedOut(env.clientDel) then Fail(c1) else Goto(c1, ClientAdd)
  }

  function AddClient(c: Conf, env: PassEnv): (r: Conf)
    ensures Continues(c, r) && (r.p.at == MarkActive || r.p.at == MarkError)
  {
    var c1 := RunClientAdd(c, env.clientAdd);
    if env.clientAdd.Acked? then Goto(c1, MarkActive) else Fail(c1)
  }

  function MarkApplied(c: Conf, env: PassEnv): (r: Conf)
    ensures Continues(c, r) && (r.p.at == Finish || r.p.at == MarkError)
  {
    if env.markOk then Goto(MarkRuntime(c, true, c.p.ip, ACTIVE), Finish) else Fail(c)
  }

  function MarkFailed(c: Conf, env: PassEnv): (r: Conf)
    ensures Continues(c, r) && r.p.at == Returned
  {
    var ip := if c.p.ip != "" then c.p.ip else c.p.node.currentIp;
    var c1 := MarkRuntime(c, env.errorMarkOk, ip, ERROR);
    c1.(p := c1.p.(at := Returned, marked := env.errorMarkOk))
  }

  function PassStep(cfg: Config, c: Conf, env: PassEnv): (r: Conf)
    ensures Continues(c, r)
    ensures c.p.at != Returned ==> Rank(r.p.at) < Rank(c.p.at)
  {
    match c.p.at
    case HealState => HealInvalid(cfg, c, env)
    case HealKey => HealMismatch(cfg, c, env)
    case Decide => Expire(cfg, c, env)
    case Detect => DetectIp(cfg, c, env)
    case SendPlaceholder => SendAsClient(c, env)
    case SendDetected => SendIp(c, env)
    case Confirm => ConfirmSent(c, env)
    case ClientDel => DropClient(c, env)
    case ClientAdd => AddClient(c, env)
    case MarkActive => MarkApplied(c, env)
    case Finish => Complete(c, env)
    case MarkError => MarkFailed(c, env)
    case Returned => c
  }

  /** The whole pass: steps to its return. */
  function RunPass(cfg: Config, c: Conf, env: PassEnv): (r: Conf)
    ensures r.p.at == Returned && Continues(c, r)
    decreases Rank(c.p.at)
  {
    if c.p.at == Returned then c else RunPass(cfg, PassStep(cfg, c, env), env)
  }

  lemma Unfold(cfg: Config, c: Conf, env: PassEnv)
    requires c.p.at != Returned
    ensures RunPass(cfg, c, env) == RunPass(cfg, PassStep(cfg, c, env), env)
  {
  }
}
