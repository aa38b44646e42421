/** The database object of src/db.c: one atomic statement per method. A statement that fails, or
    whose guard selects no row, changes nothing and returns -1. */
module Store {
  import opened Types
  import Sql

  /** The node in memory, updated in place by a pass. */
  class Node {
    const key: Key
    var clientPort: int
    var settings: Settings
    var currentIp: string
    var status: string
    var xorKey: string
    var lifetime: int
    var lastApplied: int
    var rotation: int
    var pending: string

    constructor (key: Key, r: Row)
      ensures this.key == key && Value() == r
    {
      this.key := key;
      clientPort, settings, currentIp, status := r.clientPort, r.settings, r.currentIp, r.status;
      xorKey, lifetime, lastApplied := r.xorKey, r.lifetime, r.lastApplied;
      rotation, pending := r.rotation, r.pending;
    }

    function Value(): Row
      reads this
    {
      Row(clientPort, settings, currentIp, status, xorKey, lifetime, lastApplied, rotation, pending)
    }
  }

  /** `result` committed, or nothing changed. */
  predicate Ran(err: int, result: Option<Table>, before: Table, after: Table) {
    if result.Some? then err == 0 && after == result.value else err == -1 && after == before
  }

  class Database {
    var rows: Table

    constructor ()
      ensures rows == map[]
    {
      rows := map[];
    }

    /** 0: found, 1: no such row, -1: the query failed. */
    method GetNode(k: Key, now: int, ok: bool) returns (rc: int, out: Row)
      ensures rc == if !ok then -1 else if k in rows then 0 else 1
      ensures rc == 0 ==> out == Sql.Load(rows[k], now)
    {
      out := Row(0, Settings("", "", "", None, ""), "", "", "", 0, 0, NONE, "");
      if !ok { return -1, out; }
      if k !in rows { return 1, out; }
      out := rows[k];
      if out.lifetime != 0 && (out.lifetime < LIFETIME_MIN || out.lifetime > LIFETIME_MAX) {
        out := out.(lifetime := 0);
      }
      if out.lastApplied < 0 {
        out := out.(lastApplied := 0);
      } else if out.lastApplied > now + FUTURE_SLACK {
        out := out.(lastApplied := 1);
      }
      rc := 0;
    }

    /** Loads the listed rows, each on its own clock reading, into a buffer that doubles when full. */
    method ListNodes(order: seq<Key>, nows: seq<int>, ok: bool) returns (err: int, nodes: seq<Row>)
      requires (forall k <- order :: k in rows) && |nows| == |order|
      ensures err == if ok then 0 else -1
      ensures ok ==> |nodes| == |order| && forall i | 0 <= i < |order| :: nodes[i] == Sql.Load(rows[order[i]], nows[i])
    {
      nodes := [];
      if !ok { return -1, nodes; }
      var arr, n := new Row[0], 0;
      while n < |order|
        invariant 0 <= n <= |order| && n <= arr.Length
        invariant fresh(arr)
        invariant forall i | 0 <= i < n :: arr[i] == Sql.Load(rows[order[i]], nows[i])
      {
        if n == arr.Length {
          arr := Grow(arr);
        }
        var rc, row := GetNode(order[n], nows[n], true);
        arr[n] := row;
        n := n + 1;
      }
      nodes := arr[..n];
      err := 0;
    }

    static method Grow(arr: array<Row>) returns (bigger: array<Row>)
      ensures fresh(bigger) && bigger.Length > arr.Length && bigger[..arr.Length] == arr[..]
    {
      bigger := new Row[if arr.Length == 0 then 8 else arr.Length * 2];
      forall i | 0 <= i < arr.Length {
        bigger[i] := arr[i];
      }
    }

    method Upsert(k: Key, node: Row, setLifetime: bool, ok: bool) returns (err: int)
      modifies this
      ensures Ran(err, Sql.Commit(ok, Sql.Upsert(old(rows), k, node, setLifetime)), old(rows), rows)
    {
      var n := node;
      if n.settings.ipCheckUrl == "" {
        n := n.(settings := n.settings.(ipCheckUrl := DEFAULT_IP_CHECK_URL));
      }
      if n.status == "" {
        n := n.(status := ACTIVE);
      }
      if !ok || Sql.PortTaken(rows, k, n.clientPort) { return -1; }
      if k in rows {
        var r := rows[k];
        rows := rows[k := Row(n.clientPort, n.settings, n.currentIp, n.status,
                              if r.rotation != NONE then r.xorKey else n.xorKey,
                              if setLifetime then n.lifetime else r.lifetime,
                              r.lastApplied, r.rotation, r.pending)];
      } else {
        rows := rows[k := n.(lifetime := if setLifetime then n.lifetime else 0)];
      }
      err := 0;
    }

    /** 0: deleted, 1: no such row, -1: the statement failed. */
    method DeleteNode(k: Key, ok: bool) returns (rc: int)
      modifies this
      ensures var result := Sql.Commit(ok, Sql.Delete(old(rows), k));
              if result.Some? then rc == 0 && rows == result.value else rc != 0 && rows == old(rows)
    {
      if !ok { return -1; }
      if k !in rows { return 1; }
      rows := rows - {k};
      rc := 0;
    }

    /** Succeeds on a missing row too. */
    method UpdateRuntime(k: Key, ip: string, status: string, ok: bool) returns (err: int)
      modifies this
      ensures err == if ok then 0 else -1
      ensures rows == if ok then Sql.UpdateRuntime(old(rows), k, ip, status) else old(rows)
    {
      if !ok { return -1; }
      if k in rows {
        rows := rows[k := rows[k].(currentIp := ip, status := status)];
      }
      err := 0;
    }

    method UpdateApplied(k: Key, applied: int, ok: bool) returns (err: int)
      modifies this
      ensures Ran(err, Sql.Commit(ok, Sql.UpdateApplied(old(rows), k, applied)), old(rows), rows)
    {
      if !ok || k !in rows { return -1; }
      rows := rows[k := rows[k].(lastApplied := applied)];
      err := 0;
    }

    method BeginRotation(k: Key, key: string, ok: bool) returns (err: int)
      modifies this
      ensures Ran(err, Sql.Commit(ok, Sql.BeginRotation(old(rows), k, key)), old(rows), rows)
      ensures err == 0 <==> ok && k in old(rows) && old(rows)[k].rotation == 0
    {
      if !ok || k !in rows || rows[k].rotation != NONE { return -1; }
      rows := rows[k := rows[k].(xorKey := key, pending := key, rotation := PENDING_REMOTE)];
      err := 0;
    }

    method CompleteRotation(k: Key, applied: int, ok: bool) returns (err: int)
      modifies this
      ensures Ran(err, Sql.Commit(ok, Sql.CompleteRotation(old(rows), k, applied)), old(rows), rows)
      ensures err == 0 <==> ok && k in old(rows) && old(rows)[k].rotation != 0
    {
      if !ok || k !in rows || rows[k].rotation == NONE { return -1; }
      rows := rows[k := rows[k].(rotation := NONE, pending := "", lastApplied := applied)];
      err := 0;
    }

    method UpdateRotationState(k: Key, state: int, ok: bool) returns (err: int)
      modifies this
      ensures Ran(err, Sql.Commit(ok, Sql.UpdateRotationState(old(rows), k, state)), old(rows), rows)
      ensures err == 0 <==> ok && k in old(rows) && state in {1, 2} && old(rows)[k].rotation in {1, 2}
    {
      if state != PENDING_REMOTE && state != PENDING_LOCAL_RECOVERY { return -1; }
      if !ok || k !in rows { return -1; }
      if rows[k].rotation != PENDING_REMOTE && rows[k].rotation != PENDING_LOCAL_RECOVERY { return -1; }
      rows := rows[k := rows[k].(rotation := state)];
      err := 0;
    }

    method ReplaceRotation(k: Key, key: string, ok: bool) returns (err: int)
      modifies this
      ensures Ran(err, Sql.Commit(ok, Sql.ReplaceRotation(old(rows), k, key)), old(rows), rows)
    {
      if !ok || k !in rows { return -1; }
      rows := rows[k := rows[k].(xorKey := key, pending := key, rotation := PENDING_REMOTE)];
      err := 0;
    }

    method ClearRotation(k: Key, ok: bool) returns (err: int)
      modifies this
      ensures Ran(err, Sql.Commit(ok, Sql.ClearRotation(old(rows), k)), old(rows), rows)
    {
      if !ok || k !in rows { return -1; }
      rows := rows[k := rows[k].(rotation := NONE, pending := "")];
      err := 0;
    }
  }
}
