/** The lifetime arithmetic: load clamping followed by the expiry test, on 64-bit columns. */
module Expiry {
  import opened Types
  import Sql
  import opened Protocol
  import opened PassSafety

  predicate Int64(x: int) {
    -0x8000_0000_0000_0000 <= x <= 0x7fff_ffff_ffff_ffff
  }

  /** Clock readings for which `now + 86400` is representable. */
  predicate ClockReading(now: int) {
    0 <= now <= 0x7fff_ffff_ffff_ffff - FUTURE_SLACK
  }

  /** Neither the clamping test nor the age test overflows, whatever the columns hold. */
  lemma NoOverflow(lifetime: int, applied: int, loadedAt: int, now: int)
    requires Int64(lifetime) && Int64(applied) && ClockReading(loadedAt) && ClockReading(now)
    ensures Int64(loadedAt + FUTURE_SLACK)
    ensures Int64(now - Sql.ClampApplied(applied, loadedAt))
    ensures 0 <= Sql.ClampLifetime(lifetime) <= LIFETIME_MAX
  {
  }

  /** The verdict on the stored columns, with no clamping in between. */
  predicate Expired(lifetime: int, applied: int, loadedAt: int, now: int) {
    && now >= MIN_SANE_TIME
    && LIFETIME_MIN <= lifetime <= LIFETIME_MAX
    && (applied <= 0
        || (applied <= loadedAt + FUTURE_SLACK && now - applied >= lifetime)
        || (applied > loadedAt + FUTURE_SLACK && now - 1 >= lifetime))
  }

  /** A pass over a loaded row outside a rotation judges it expired exactly by the verdict on the
      stored columns, and then forces the apply. */
  lemma ExpiryVerdict(cfg: Config, c: Conf, env: PassEnv, r: Row, loadedAt: int)
    requires c.p.node == Sql.Load(r, loadedAt) && r.rotation == NONE && !c.p.expired && ClockReading(loadedAt)
    ensures Expire(cfg, c, env).p.expired <==> Expired(r.lifetime, r.lastApplied, loadedAt, c.p.now)
    ensures Expire(cfg, c, env).p.force <==> c.p.force || Expired(r.lifetime, r.lastApplied, loadedAt, c.p.now)
  {
  }

  /** A row stamped in the future counts as expired exactly when its lifetime is at most now - 1. */
  lemma FutureStampVerdict(lifetime: int, applied: int, now: int)
    requires ClockReading(now) && now >= MIN_SANE_TIME && applied > now + FUTURE_SLACK && ValidLifetime(lifetime)
    ensures Expired(lifetime, applied, now, now) <==> 0 < lifetime <= now - 1
    ensures 0 < lifetime < MIN_SANE_TIME ==> Expired(lifetime, applied, now, now)
  {
  }

  /** So a future stamp does not always expire: with the longest lifetime, on a clock of the year
      2023, the row is kept. */
  lemma FutureStampKept()
    ensures ValidLifetime(LIFETIME_MAX) && !Expired(LIFETIME_MAX, 4_000_000_000, 1_700_000_000, 1_700_000_000)
  {
  }

  /** A row that needs nothing: no rotation, no mark, not expired, and the detected address its own. */
  predicate Quiet(r: Row, loadedAt: int, env: PassEnv) {
    && r.rotation == 0 && !Marked(r) && !Expired(r.lifetime, r.lastApplied, loadedAt, env.now)
    && env.detection.Detected? && SameText(r.currentIp, env.detection.ip)
  }

  /** An unforced pass over such a row runs no subprocess, changes nothing and returns 0. */
  lemma QuietPass(cfg: Config, w: World, k: Key, loadedAt: int, env: PassEnv)
    requires k in w.rows && ClockReading(loadedAt) && Quiet(w.rows[k], loadedAt, env)
    ensures var f := RunPass(cfg, Conf(w, StartPass(k, Sql.Load(w.rows[k], loadedAt), false)), env);
            f.w == w && f.p.rc == 0 && f.p.calls == [] && !f.p.applied
  {
    var r := w.rows[k];
    var c := Conf(w, StartPass(k, Sql.Load(r, loadedAt), false));
    var c1 := HealInvalid(cfg, c, env);
    var c2 := HealMismatch(cfg, c1, env);
    ExpiryVerdict(cfg, c2, env, r, loadedAt);
    Unfold(cfg, c, env);
    Unfold(cfg, c1, env);
    Unfold(cfg, c2, env);
    NotExpired(cfg, c2, env);
    Unfold(cfg, Expire(cfg, c2, env), env);
  }

  lemma NotExpired(cfg: Config, c: Conf, env: PassEnv)
    requires !Expire(cfg, c, env).p.expired && !c.p.expired && c.p.at == Decide
    ensures Expire(cfg, c, env) == Goto(c, Detect)
  {
  }
}
