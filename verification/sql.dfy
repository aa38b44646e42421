/** The SQL statements of src/db.c as functions on the table. `None` means that the
    statement's guard selected no row, or that a constraint refused it. */
module Sql {
  import opened Types

  // ---- loading ------------------------------------------------------------------------------

  function ClampLifetime(lifetime: int): int {
    if lifetime != 0 && (lifetime < LIFETIME_MIN || lifetime > LIFETIME_MAX) then 0 else lifetime
  }

  function ClampApplied(applied: int, now: int): int {
    if applied < 0 then 0
    else if applied > now + FUTURE_SLACK then 1
    else applied
  }

  function Load(r: Row, now: int): Row {
    r.(lifetime := ClampLifetime(r.lifetime), lastApplied := ClampApplied(r.lastApplied, now))
  }

  // ---- statements ---------------------------------------------------------------------------

  predicate PortTaken(t: Table, k: Key, clientPort: int) {
    exists k' <- t.Keys :: k' != k && k'.host == k.host && k'.port == k.port
                           && k'.ipVersion == k.ipVersion && t[k'].clientPort == clientPort
  }

  function WithDefaults(n: Row): Row {
    n.(settings := if n.settings.ipCheckUrl == "" then n.settings.(ipCheckUrl := DEFAULT_IP_CHECK_URL) else n.settings,
       status := if n.status == "" then ACTIVE else n.status)
  }

  function Upsert(t: Table, k: Key, node: Row, setLifetime: bool): Option<Table> {
    var n := WithDefaults(node);
    if PortTaken(t, k, n.clientPort) then None
    else if k in t then
      var r := t[k];
      Some(t[k := r.(clientPort := n.clientPort, settings := n.settings,
                     currentIp := n.currentIp, status := n.status,
                     lifetime := if setLifetime then n.lifetime else r.lifetime,
                     xorKey := if r.rotation != NONE then r.xorKey else n.xorKey)])
    else
      Some(t[k := n.(lifetime := if setLifetime then n.lifetime else 0)])
  }

  function Delete(t: Table, k: Key): Option<Table> {
    if k in t then Some(t - {k}) else None
  }

  function UpdateRuntime(t: Table, k: Key, ip: string, status: string): Table {
    if k in t then t[k := t[k].(currentIp := ip, status := status)] else t
  }

  function UpdateApplied(t: Table, k: Key, applied: int): Option<Table> {
    if k in t then Some(t[k := t[k].(lastApplied := applied)]) else None
  }

  function BeginRotation(t: Table, k: Key, key: string): Option<Table> {
    if k in t && t[k].rotation == NONE then
      Some(t[k := t[k].(xorKey := key, pending := key, rotation := PENDING_REMOTE)])
    else None
  }

  function CompleteRotation(t: Table, k: Key, applied: int): Option<Table> {
    if k in t && t[k].rotation != NONE then
      Some(t[k := t[k].(rotation := NONE, pending := "", lastApplied := applied)])
    else None
  }

  function UpdateRotationState(t: Table, k: Key, state: int): Option<Table> {
    if (state == PENDING_REMOTE || state == PENDING_LOCAL_RECOVERY)
       && k in t && (t[k].rotation == PENDING_REMOTE || t[k].rotation == PENDING_LOCAL_RECOVERY) then
      Some(t[k := t[k].(rotation := state)])
    else None
  }

  function ReplaceRotation(t: Table, k: Key, key: string): Option<Table> {
    if k in t then Some(t[k := t[k].(xorKey := key, pending := key, rotation := PENDING_REMOTE)]) else None
  }

  function ClearRotation(t: Table, k: Key): Option<Table> {
    if k in t then Some(t[k := t[k].(rotation := NONE, pending := "")]) else None
  }

  /** A statement commits when the engine runs it and its guard selects a row. */
  function Commit(ok: bool, result: Option<Table>): Option<Table> {
    if ok then result else None
  }
}
