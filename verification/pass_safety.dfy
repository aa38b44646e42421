/** What every step of a reconcile pass keeps, for one node. */
module PassSafety {
  import opened Types
  import Sql
  import opened Protocol

  /** The durable row: a pending key exists exactly while a rotation does and is the key in use,
      the application time is unset or was read from a plausible clock, and the lifetime is off or
      within its limits. */
  predicate RowOk(r: Row) {
    && NONE <= r.rotation <= PENDING_LOCAL_RECOVERY
    && (r.rotation == NONE ==> r.pending == "")
    && (r.rotation != NONE ==> r.pending == r.xorKey && r.xorKey != "")
    && (r.lastApplied == 0 || r.lastApplied >= MIN_SANE_TIME)
    && ValidLifetime(r.lifetime)
  }

  /** The in-memory node agrees with the committed row on everything a send reads. */
  predicate Coherent(n: Row, r: Row) {
    && n.xorKey == r.xorKey && n.pending == r.pending && n.rotation == r.rotation
    && n.clientPort == r.clientPort
    && n.settings.(ipCheckUrl := "") == r.settings.(ipCheckUrl := "")
  }

  /** The server's entry was last written from the row, with the address `ip` or, where that is
      configured, the placeholder that the server resolves. */
  predicate ServerHolds(cfg: Config, w: World, k: Key, r: Row, ip: string) {
    && ServerOf(k) in w.server
    && var e := w.server[ServerOf(k)];
    && e.port == r.clientPort && e.key == r.xorKey && e.comment == r.settings.clientComment
    && (e.address == Literal(ip) || (cfg.useClientIp && e.address == ClientIp))
  }

  predicate KernelHolds(w: World, k: Key, r: Row) {
    && ClientOf(k) in w.kernel
    && var e := w.kernel[ClientOf(k)];
    && e.port == r.clientPort && e.key == r.xorKey && e.description == r.settings.description
  }

  /** Both ends were last written from the row. */
  predicate Matches(cfg: Config, w: World, k: Key)
    requires k in w.rows
  {
    ServerHolds(cfg, w, k, w.rows[k], w.rows[k].currentIp) && KernelHolds(w, k, w.rows[k])
  }

  /** The status asks for the next pass to apply the row. */
  predicate Marked(r: Row) {
    r.status == ERROR || r.status == SYNCING
  }

  predicate Settled(r: Row) {
    r.rotation == NONE && r.status == ACTIVE
  }

  /** Once a rotation has been confirmed remotely, the server holds the row's key, unless a
      deregistration removed the entry or another node with the same name there changed it. */
  predicate RemoteSound(w: World, k: Key, orphan: bool, eclipsed: bool)
    requires k in w.rows
  {
    w.rows[k].rotation == PENDING_LOCAL_RECOVERY ==>
      eclipsed || if ServerOf(k) in w.server then w.server[ServerOf(k)].key == w.rows[k].xorKey else orphan
  }

  /** The row's key, when subject to rotation, has not outlived its lifetime at `now`. */
  predicate KeyWithinLifetime(cfg: Config, r: Row, now: int) {
    r.rotation == NONE && Rotates(cfg, r) && now >= MIN_SANE_TIME && r.lastApplied != 0 && r.lifetime > 0 ==>
      now - r.lastApplied < r.lifetime || Sql.ClampLifetime(r.lifetime) == 0
  }

  /** Outside a rotation, a pass counts as expired only on a sane clock, and only to seed the
      timer or for a node whose key is not rotated. */
  predicate ExpiryJustified(cfg: Config, p: Pass, r: Row) {
    p.expired && r.rotation == NONE ==> p.now >= MIN_SANE_TIME && (!Rotates(cfg, r) || r.lastApplied == 0)
  }

  predicate NoneTimedOut(calls: seq<Call>) {
    forall i | 0 <= i < |calls| :: !TimedOut(calls[i])
  }

  /** At most the last call was killed at its deadline. */
  predicate OnlyLastTimedOut(calls: seq<Call>) {
    forall i | 0 <= i < |calls| - 1 :: !TimedOut(calls[i])
  }

  /** What is known of the node from outside the pass: `exempt`, its agreement is in doubt;
      `orphan`, a deregistration reached the peers; `eclipsed`, another node changed an entry they
      share; `owes`, an earlier pass left work undone. */
  datatype Standing = Standing(exempt: bool, orphan: bool, eclipsed: bool, owes: bool)

  predicate LoadedFrom(n: Row, r: Row) {
    && n.lifetime == Sql.ClampLifetime(r.lifetime)
    && (n.lastApplied == r.lastApplied || n.lastApplied == 1 || r.lastApplied < 0)
  }

  predicate EarlyInv(cfg: Config, c: Conf, st: Standing)
    requires c.p.key in c.w.rows
  {
    var p, r := c.p, c.w.rows[c.p.key];
    && p.calls == [] && !p.applied && p.rc == 0 && p.ip == "" && LoadedFrom(p.node, r)
    && (p.force || (p.node.status == r.status && p.node.currentIp == r.currentIp))
    && (st.owes ==> p.force || Marked(r) || r.rotation != NONE)
    && (st.exempt || p.force || !Settled(r) || Matches(cfg, c.w, p.key))
  }

  predicate DecidedInv(cfg: Config, c: Conf)
    requires c.p.key in c.w.rows
  {
    var r := c.w.rows[c.p.key];
    && (r.rotation != NONE ==> c.p.force)
    && ExpiryJustified(cfg, c.p, r)
    && KeyWithinLifetime(cfg, r, c.p.now)
  }

  predicate SendingInv(cfg: Config, c: Conf)
    requires c.p.key in c.w.rows
  {
    var r := c.w.rows[c.p.key];
    && NoneTimedOut(c.p.calls) && !c.p.applied && c.p.rc == 0 && c.p.ip != ""
    && (c.p.at == SendPlaceholder ==> cfg.useClientIp)
    && ExpiryJustified(cfg, c.p, r) && KeyWithinLifetime(cfg, r, c.p.now)
  }

  predicate SentInv(cfg: Config, c: Conf)
    requires c.p.key in c.w.rows
  {
    var r := c.w.rows[c.p.key];
    && NoneTimedOut(c.p.calls) && c.p.rc == 0 && c.p.ip != "" && ExpiryJustified(cfg, c.p, r)
    && ServerHolds(cfg, c.w, c.p.key, r, c.p.ip)
  }

  predicate ReturnedInv(cfg: Config, c: Conf, st: Standing)
    requires c.p.key in c.w.rows
  {
    var p, r := c.p, c.w.rows[c.p.key];
    && OnlyLastTimedOut(p.calls)
    && (p.rc == 0 && p.applied ==> Settled(r) && Matches(cfg, c.w, p.key))
    && (p.rc == 0 && !p.applied ==>
          !p.force && r.rotation == NONE && !Marked(r) && !st.owes && p.calls == []
          && (st.exempt || !Settled(r) || Matches(cfg, c.w, p.key)))
    && (p.rc == 0 ==> SameText(r.currentIp, p.ip))
    && (p.rc != 0 && p.marked ==>
          r.status == ERROR && r.currentIp == if p.ip != "" then p.ip else p.node.currentIp)
  }

  /** The invariant of a pass, label by label. */
  predicate PassInv(cfg: Config, c: Conf, st: Standing) {
    && c.p.key in c.w.rows
    && var p, r := c.p, c.w.rows[c.p.key];
    && RowOk(r) && Coherent(p.node, r) && RemoteSound(c.w, p.key, st.orphan, st.eclipsed)
    && match p.at
       case HealState | HealKey | Decide => EarlyInv(cfg, c, st) && !p.expired
       case Detect => EarlyInv(cfg, c, st) && DecidedInv(cfg, c)
       case SendPlaceholder | SendDetected => SendingInv(cfg, c)
       case Confirm => SentInv(cfg, c)
       case ClientDel | ClientAdd => SentInv(cfg, c) && p.applied && r.rotation != PENDING_REMOTE
       case MarkActive =>
         SentInv(cfg, c) && p.applied && r.rotation != PENDING_REMOTE && KernelHolds(c.w, p.key, r)
       case Finish =>
         && SentInv(cfg, c) && p.applied && r.rotation != PENDING_REMOTE && KernelHolds(c.w, p.key, r)
         && r.status == ACTIVE && r.currentIp == p.ip
       case MarkError => p.rc != 0 && OnlyLastTimedOut(p.calls)
       case Returned => ReturnedInv(cfg, c, st)
  }

  // ---- every label keeps the invariant ------------------------------------------------------

  lemma HealingKeeps(cfg: Config, c: Conf, env: PassEnv, st: Standing)
    requires PassInv(cfg, c, st) && (c.p.at == HealState || c.p.at == HealKey)
    ensures PassInv(cfg, PassStep(cfg, c, env), st)
  {
  }

  lemma ResumeKeeps(cfg: Config, c: Conf, env: PassEnv, st: Standing)
    requires PassInv(cfg, c, st) && c.p.at == Decide
    requires c.p.node.rotation != NONE || !AgedOut(c.p.node, c.p.now) || c.p.now < MIN_SANE_TIME
    ensures PassInv(cfg, Expire(cfg, c, env), st)
  {
  }

  lemma AgedOutKeeps(cfg: Config, c: Conf, env: PassEnv, st: Standing)
    requires PassInv(cfg, c, st) && c.p.at == Decide
    requires c.p.node.rotation == NONE && AgedOut(c.p.node, c.p.now) && c.p.now >= MIN_SANE_TIME
    ensures PassInv(cfg, Expire(cfg, c, env), st)
  {
  }

  lemma DetectFailsKeeps(cfg: Config, c: Conf, env: PassEnv, st: Standing)
    requires PassInv(cfg, c, st) && c.p.at == Detect && env.detection.Undetected?
    ensures PassInv(cfg, DetectIp(cfg, c, env), st)
  {
  }

  lemma SkipKeeps(cfg: Config, c: Conf, env: PassEnv, st: Standing)
    requires PassInv(cfg, c, st) && c.p.at == Detect
    requires env.detection.Detected? && !NeedApply(c.p, env.detection.ip)
    ensures PassInv(cfg, DetectIp(cfg, c, env), st)
  {
  }

  lemma ApplyKeeps(cfg: Config, c: Conf, env: PassEnv, st: Standing)
    requires PassInv(cfg, c, st) && c.p.at == Detect
    requires env.detection.Detected? && NeedApply(c.p, env.detection.ip)
    ensures PassInv(cfg, DetectIp(cfg, c, env), st)
  {
  }

  lemma SendAsClientKeeps(cfg: Config, c: Conf, env: PassEnv, st: Standing)
    requires PassInv(cfg, c, st) && c.p.at == SendPlaceholder
    ensures PassInv(cfg, SendAsClient(c, env), st)
  {
  }

  lemma SendIpKeeps(cfg: Config, c: Conf, env: PassEnv, st: Standing)
    requires PassInv(cfg, c, st) && c.p.at == SendDetected
    ensures PassInv(cfg, SendIp(c, env), st)
  {
  }

  lemma ConfirmKeeps(cfg: Config, c: Conf, env: PassEnv, st: Standing)
    requires PassInv(cfg, c, st) && c.p.at == Confirm
    ensures PassInv(cfg, ConfirmSent(c, env), st)
  {
  }

  lemma DropClientKeeps(cfg: Config, c: Conf, env: PassEnv, st: Standing)
    requires PassInv(cfg, c, st) && c.p.at == ClientDel
    ensures PassInv(cfg, DropClient(c, env), st)
  {
  }

  lemma AddClientKeeps(cfg: Config, c: Conf, env: PassEnv, st: Standing)
    requires PassInv(cfg, c, st) && c.p.at == ClientAdd
    ensures PassInv(cfg, AddClient(c, env), st)
  {
  }

  lemma MarkActiveKeeps(cfg: Config, c: Conf, env: PassEnv, st: Standing)
    requires PassInv(cfg, c, st) && c.p.at == MarkActive
    ensures PassInv(cfg, MarkApplied(c, env), st)
  {
  }

  lemma FinishRotationKeeps(cfg: Config, c: Conf, env: PassEnv, st: Standing)
    requires PassInv(cfg, c, st) && c.p.at == Finish && c.p.node.rotation != NONE
    ensures PassInv(cfg, Complete(c, env), st)
  {
  }

  lemma FinishPlainKeeps(cfg: Config, c: Conf, env: PassEnv, st: Standing)
    requires PassInv(cfg, c, st) && c.p.at == Finish && c.p.node.rotation == NONE
    ensures PassInv(cfg, Complete(c, env), st)
  {
  }

  lemma MarkErrorKeeps(cfg: Config, c: Conf, env: PassEnv, st: Standing)
    requires PassInv(cfg, c, st) && c.p.at == MarkError
    ensures PassInv(cfg, MarkFailed(c, env), st)
  {
  }

  lemma DetectKeeps(cfg: Config, c: Conf, env: PassEnv, st: Standing)
    requires PassInv(cfg, c, st) && c.p.at == Detect
    ensures PassInv(cfg, DetectIp(cfg, c, env), st)
  {
    match env.detection
    case Undetected(_) => DetectFailsKeeps(cfg, c, env, st);
    case Detected(ip) => if NeedApply(c.p, ip) { ApplyKeeps(cfg, c, env, st); } else { SkipKeeps(cfg, c, env, st); }
  }

  lemma DecideKeeps(cfg: Config, c: Conf, env: PassEnv, st: Standing)
    requires PassInv(cfg, c, st) && c.p.at == Decide
    ensures PassInv(cfg, Expire(cfg, c, env), st)
  {
    if c.p.node.rotation == NONE && AgedOut(c.p.node, c.p.now) && c.p.now >= MIN_SANE_TIME {
      AgedOutKeeps(cfg, c, env, st);
    } else {
      ResumeKeeps(cfg, c, env, st);
    }
  }

  /** Every step of a pass, whatever the environment answers, keeps the pass invariant. */
  lemma {:induction false} StepKeeps(cfg: Config, c: Conf, env: PassEnv, st: Standing)
    requires PassInv(cfg, c, st)
    ensures PassInv(cfg, PassStep(cfg, c, env), st)
  {
    match c.p.at {
      case HealState | HealKey => HealingKeeps(cfg, c, env, st);
      case Decide => DecideKeeps(cfg, c, env, st);
      case Detect => DetectKeeps(cfg, c, env, st);
      case SendPlaceholder => SendAsClientKeeps(cfg, c, env, st);
      case SendDetected => SendIpKeeps(cfg, c, env, st);
      case Confirm => ConfirmKeeps(cfg, c, env, st);
      case ClientDel => DropClientKeeps(cfg, c, env, st);
      case ClientAdd => AddClientKeeps(cfg, c, env, st);
      case MarkActive => MarkActiveKeeps(cfg, c, env, st);
      case Finish =>
        if c.p.node.rotation != NONE {
          FinishRotationKeeps(cfg, c, env, st);
        } else {
          FinishPlainKeeps(cfg, c, env, st);
        }
      case MarkError => MarkErrorKeeps(cfg, c, env, st);
      case Returned =>
    }
  }

  // ---- what a step touches -------------------------------------------------------------------

  predicate SameExcept<I(==), V(==)>(m: map<I, V>, m': map<I, V>, k: I) {
    && (forall k' | k' in m && k' != k :: k' in m' && m'[k'] == m[k'])
    && (forall k' | k' in m' && k' != k :: k' in m)
  }

  /** `w'` differs from `w` at most in the row of `k`, which stays, and in its entries at the peers. */
  predicate OnlyAt(w: World, w': World, k: Key) {
    && w'.rows.Keys == w.rows.Keys && SameExcept(w.rows, w'.rows, k)
    && SameExcept(w.server, w'.server, ServerOf(k)) && SameExcept(w.kernel, w'.kernel, ClientOf(k))
  }

  predicate SameEntry<I(==), V(==)>(m: map<I, V>, m': map<I, V>, k: I) {
    (k in m <==> k in m') && (k in m ==> m'[k] == m[k])
  }

  /** Both peers hold for `k` what they held before. */
  predicate SamePeers(w: World, w': World, k: Key) {
    SameEntry(w.server, w'.server, ServerOf(k)) && SameEntry(w.kernel, w'.kernel, ClientOf(k))
  }

  /** Two nodes that some peer cannot tell apart. */
  predicate Shares(k: Key, k': Key) {
    k != k' && (ServerOf(k) == ServerOf(k') || ClientOf(k) == ClientOf(k'))
  }

  /** Only a node that shares an entry notices what another's step changes at the peers. */
  lemma OnlySharersNotice(w: World, w': World, k: Key, k': Key)
    requires OnlyAt(w, w', k) && k' != k && !SamePeers(w, w', k')
    ensures Shares(k, k')
  {
  }

  lemma RowsFrame(cfg: Config, c: Conf, env: PassEnv)
    ensures var w' := PassStep(cfg, c, env).w;
            w'.rows.Keys == c.w.rows.Keys && SameExcept(c.w.rows, w'.rows, c.p.key)
  {
  }

  lemma Unchanged<I, V>(m: map<I, V>, k: I)
    ensures SameExcept(m, m, k)
  {
  }

  lemma SetOnly<I, V>(m: map<I, V>, k: I, v: V)
    ensures SameExcept(m, m[k := v], k) && SameExcept(m, m - {k}, k)
  {
  }

  lemma ServerFrame(cfg: Config, c: Conf, env: PassEnv)
    ensures SameExcept(c.w.server, PassStep(cfg, c, env).w.server, ServerOf(c.p.key))
  {
    hide SameExcept;
    if c.p.at == SendPlaceholder {
      SetOnly(c.w.server, ServerOf(c.p.key), ServerEntryOf(c.p.node, ClientIp));
    } else if c.p.at == SendDetected {
      SetOnly(c.w.server, ServerOf(c.p.key), ServerEntryOf(c.p.node, Literal(c.p.ip)));
    } else {
      assert PassStep(cfg, c, env).w.server == c.w.server;
    }
    Unchanged(c.w.server, ServerOf(c.p.key));
  }

  lemma KernelFrame(cfg: Config, c: Conf, env: PassEnv)
    ensures SameExcept(c.w.kernel, PassStep(cfg, c, env).w.kernel, ClientOf(c.p.key))
  {
    hide SameExcept;
    if c.p.at == ClientDel || c.p.at == ClientAdd {
      SetOnly(c.w.kernel, ClientOf(c.p.key), KernelEntryOf(c.p.node));
    } else {
      assert PassStep(cfg, c, env).w.kernel == c.w.kernel;
    }
    Unchanged(c.w.kernel, ClientOf(c.p.key));
  }

  /** A step of a pass touches no other row, and no entry of another name at a peer. */
  lemma {:induction false} StepFrame(cfg: Config, c: Conf, env: PassEnv)
    ensures OnlyAt(c.w, PassStep(cfg, c, env).w, c.p.key)
  {
    RowsFrame(cfg, c, env);
    ServerFrame(cfg, c, env);
    KernelFrame(cfg, c, env);
  }

  /** A rotation either stays where it is or moves one phase on: 0 to 1, 1 to 2, 2 to 0. */
  predicate PhaseStep(from: int, to: int) {
    to == from || (from == NONE && to == PENDING_REMOTE)
    || (from == PENDING_REMOTE && to == PENDING_LOCAL_RECOVERY)
    || (from == PENDING_LOCAL_RECOVERY && to == NONE)
  }

  /** What a step may do to the pass's own row: the port and settings stay; the phase moves
      forward; the key changes only as a rotation begins; the application time moves only to
      close a rotation, to seed an unset timer, or for a node whose key is not rotated. */
  predicate RowStep(cfg: Config, r: Row, r': Row) {
    && r'.clientPort == r.clientPort && r'.settings == r.settings && r'.lifetime == r.lifetime
    && PhaseStep(r.rotation, r'.rotation)
    && (r'.xorKey != r.xorKey ==>
          r.rotation == NONE && r'.rotation == PENDING_REMOTE && cfg.enableXor && r.xorKey != "")
    && (r'.lastApplied != r.lastApplied ==>
          (r.rotation == PENDING_LOCAL_RECOVERY && r'.rotation == NONE)
          || (r.rotation == NONE && (r.lastApplied == 0 || !cfg.enableXor || r.xorKey == "")))
  }

  lemma StepMovesForward(cfg: Config, c: Conf, env: PassEnv, st: Standing)
    requires PassInv(cfg, c, st)
    ensures c.p.key in PassStep(cfg, c, env).w.rows
    ensures RowStep(cfg, c.w.rows[c.p.key], PassStep(cfg, c, env).w.rows[c.p.key])
  {
    if c.p.at == Decide {
      ExpireMovesForward(cfg, c, env, st);
    } else if c.p.at == Finish {
      CompleteMovesForward(cfg, c, env, st);
    }
  }

  lemma ExpireMovesForward(cfg: Config, c: Conf, env: PassEnv, st: Standing)
    requires PassInv(cfg, c, st) && c.p.at == Decide
    ensures c.p.key in Expire(cfg, c, env).w.rows
    ensures RowStep(cfg, c.w.rows[c.p.key], Expire(cfg, c, env).w.rows[c.p.key])
  {
  }

  lemma CompleteMovesForward(cfg: Config, c: Conf, env: PassEnv, st: Standing)
    requires PassInv(cfg, c, st) && c.p.at == Finish
    ensures c.p.key in Complete(c, env).w.rows
    ensures RowStep(cfg, c.w.rows[c.p.key], Complete(c, env).w.rows[c.p.key])
  {
  }
}
