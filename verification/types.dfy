/** The values the daemon passes around: node keys, rows, configuration, and the
    entries held by the two peers (the remote server and the local kernel module). */
module Types {
  datatype Option<+T> = None | Some(value: T)

  const MIN_SANE_TIME := 1600000000
  const LIFETIME_MIN := 60
  const LIFETIME_MAX := 0x7fff_ffff
  const FUTURE_SLACK := 86400

  const NONE := 0
  const PENDING_REMOTE := 1
  const PENDING_LOCAL_RECOVERY := 2

  const ACTIVE := "active"
  const ERROR := "error"
  const SYNCING := "syncing"

  const DEFAULT_IP_CHECK_URL := "http://ip.3322.net/"

  /** The primary key of the `nodes` table. */
  datatype Key = Key(host: string, port: int, uid: string, ipVersion: string)

  /** The columns the protocol stores and forwards but never branches on. */
  datatype Settings = Settings(psk: string, description: string, clientComment: string,
                               memlimit: Option<int>, ipCheckUrl: string)

  /** `struct tumgrd_node` without its key: a row of the table and its in-memory copy alike.
      An SQL NULL text column is the empty string. */
  datatype Row = Row(clientPort: int, settings: Settings, currentIp: string, status: string,
                     xorKey: string, lifetime: int, lastApplied: int, rotation: int, pending: string)

  type Table = map<Key, Row>

  datatype Config = Config(enableXor: bool, useClientIp: bool, defaultLifetime: int)

  predicate ValidLifetime(lifetime: int) {
    lifetime == 0 || LIFETIME_MIN <= lifetime <= LIFETIME_MAX
  }

  /** 64 random bytes in hexadecimal. */
  type FreshKey = s: string | |s| == 128 witness seq(128, _ => '0')

  datatype Address = ClientIp | Literal(ip: string)
  datatype ServerEntry = ServerEntry(port: int, key: string, comment: string, address: Address)
  datatype KernelEntry = KernelEntry(port: int, key: string, description: string)

  /** How a peer names the entry of a node: a server knows it by its uid, the local kernel by the
      host, the uid and the address family that the command line gives. Rows that differ only in
      what a peer does not see share its entry. */
  datatype Family = AnyFamily | Ipv4 | Ipv6
  datatype ServerId = ServerId(host: string, port: int, uid: string)
  datatype ClientId = ClientId(host: string, uid: string, family: Family)

  /** `ip_version_flag`. */
  function FamilyOf(ipVersion: string): Family {
    if SameText(ipVersion, "4") || SameText(ipVersion, "ipv4") || SameText(ipVersion, "-4") then Ipv4
    else if SameText(ipVersion, "6") || SameText(ipVersion, "ipv6") || SameText(ipVersion, "-6") then Ipv6
    else AnyFamily
  }

  function ServerOf(k: Key): ServerId {
    ServerId(k.host, k.port, k.uid)
  }

  function ClientOf(k: Key): ClientId {
    ClientId(k.host, k.uid, FamilyOf(k.ipVersion))
  }

  /** The durable table and what each peer holds. */
  datatype World = World(rows: Table, server: map<ServerId, ServerEntry>, kernel: map<ClientId, KernelEntry>)

  /** One subprocess run. `Acked`: exit status 0 and, for the server, the success marker.
      A failed run may still have taken effect; it may have been killed at its deadline. */
  datatype Call = Acked | Failed(applied: bool, timedOut: bool)

  predicate TookEffect(c: Call) {
    c.Acked? || c.applied
  }

  predicate TimedOut(c: Call) {
    c.Failed? && c.timedOut
  }

  /** A failed detection can leave text behind in the caller's buffer. */
  datatype Detection = Detected(ip: string) | Undetected(leftover: string)

  function FoldChar(c: char): char {
    if 'A' <= c <= 'Z' then (c as int + 32) as char else c
  }

  /** ASCII case-insensitive equality, as `strcasecmp`. */
  predicate SameText(a: string, b: string) {
    |a| == |b| && forall i | 0 <= i < |a| :: FoldChar(a[i]) == FoldChar(b[i])
  }

  /** The two cases of one letter. */
  predicate CasePair(upper: char, lower: char) {
    'A' <= upper <= 'Z' && lower as int - 'a' as int == upper as int - 'A' as int
  }

  /** Two texts are the same when they differ at most in the case of letters. */
  lemma SameTextIgnoresCase(a: string, b: string)
    ensures SameText(a, b) <==>
            |a| == |b| && forall i | 0 <= i < |a| :: a[i] == b[i] || CasePair(a[i], b[i]) || CasePair(b[i], a[i])
  {
    if |a| == |b| {
      forall i | 0 <= i < |a|
        ensures FoldChar(a[i]) == FoldChar(b[i]) <==> a[i] == b[i] || CasePair(a[i], b[i]) || CasePair(b[i], a[i])
      {
      }
    }
  }

  /** The two families are told apart from each other and from none. */
  lemma FamiliesDiffer()
    ensures FamilyOf("ipv4") == Ipv4 && FamilyOf("ipv6") == Ipv6 && FamilyOf("") == AnyFamily
  {
    assert "ipv6"[3] == '6' && "ipv4"[3] == '4';
  }
}
