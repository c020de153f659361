/** mesos/zk.go: the leader record the ZooKeeper detector keeps up to date.
    The detector calls back with the new leader's MasterInfo (or nil when
    there is none); the callback rewrites the record's host and port, and
    the first call releases whoever waits for initial leader information.
    Name resolution (net.LookupIP) is the parameter `lookup`; the detector
    itself, the mutex and the channel are not part of this model. */
module MesosZk {
  import opened Wrappers
  import opened GoStrings
  import opened MesosTypes
  import opened MesosUtil

  const Octet: nat := 0x100

  /** The four bytes of a packed IPv4 address, most significant first, as
      binary.BigEndian.PutUint32 writes them. */
  function Octets(ip: uint32): (o: seq<nat>)
    ensures |o| == 4
    ensures forall k | 0 <= k < 4 :: o[k] < Octet
  {
    var a := ip / Octet;
    var b := a / Octet;
    [b / Octet, b % Octet, a % Octet, ip % Octet]
  }

  /** The address the four bytes stand for. */
  function Packed(o: seq<nat>): nat
    requires |o| == 4
  {
    ((o[0] * Octet + o[1]) * Octet + o[2]) * Octet + o[3]
  }

  /** Splitting into bytes loses nothing. */
  lemma PackedOctets(ip: uint32)
    ensures Packed(Octets(ip)) == ip
  {
    var a := ip / Octet;
    var b := a / Octet;
    assert ip == a * Octet + ip % Octet;
    assert a == b * Octet + a % Octet;
    assert b == (b / Octet) * Octet + b % Octet;
  }

  /** net.IP.String of an IPv4 address: the bytes in decimal, joined by dots. */
  function DottedQuad(ip: uint32): string
  {
    Join(QuadParts(ip), '.')
  }

  function QuadParts(ip: uint32): (parts: seq<string>)
    ensures |parts| == 4
  {
    var o := Octets(ip);
    [NatToString(o[0]), NatToString(o[1]), NatToString(o[2]), NatToString(o[3])]
  }

  /** Reading a dotted quad: four decimal bytes separated by dots. */
  function ParseQuad(s: string): (r: Option<uint32>)
  {
    var parts := Split(s, '.');
    if |parts| == 4 && (forall k | 0 <= k < 4 :: IsDecimal(parts[k]) && DecimalValue(parts[k]) < Octet) then
      Some(Packed([DecimalValue(parts[0]), DecimalValue(parts[1]), DecimalValue(parts[2]), DecimalValue(parts[3])]))
    else None
  }

  lemma NoDotInDecimal(s: string)
    requires IsDecimal(s)
    ensures '.' !in s
  {
  }

  /** The dotted quad of an address reads back as the same address, so the
      bytes are written most significant first. */
  lemma ParseQuadDottedQuad(ip: uint32)
    ensures ParseQuad(DottedQuad(ip)) == Some(ip)
  {
    var o, parts := Octets(ip), QuadParts(ip);
    forall k | 0 <= k < 4
      ensures '.' !in parts[k] && IsDecimal(parts[k]) && DecimalValue(parts[k]) == o[k]
    {
      NoDotInDecimal(parts[k]);
      DecimalRoundTrip(o[k]);
    }
    SplitJoin(parts, '.');
    ParseQuadParts(DottedQuad(ip), parts, o);
    PackedOctets(ip);
  }

  lemma ParseQuadParts(s: string, parts: seq<string>, o: seq<nat>)
    requires Split(s, '.') == parts && |parts| == 4 && |o| == 4
    requires forall k | 0 <= k < 4 :: IsDecimal(parts[k]) && DecimalValue(parts[k]) == o[k] && o[k] < Octet
    ensures ParseQuad(s).Some? && ParseQuad(s).value == Packed(o)
  {
    assert [DecimalValue(parts[0]), DecimalValue(parts[1]), DecimalValue(parts[2]), DecimalValue(parts[3])] == o;
  }

  /** The host the callback records for `info`: none for nil; the resolved
      host name (or the name itself when it does not resolve); the dotted
      quad of the packed address when the info has no host name. */
  function LeaderHost(info: Option<MasterInfo>, lookup: string -> Option<string>): (host: string)
    ensures info.None? ==> host == ""
    ensures info.Some? && info.value.hostname == "" ==> host == DottedQuad(info.value.ip)
    ensures info.Some? && info.value.hostname != "" ==> host == ToIP(info.value.hostname, lookup)
  {
    match info
    case None => ""
    case Some(mi) => if mi.hostname != "" then ToIP(mi.hostname, lookup) else DottedQuad(mi.ip)
  }

  /** The recorded host is empty only when there is no leader, or when its
      host name resolves to an empty address. */
  lemma LeaderHostEmpty(info: Option<MasterInfo>, lookup: string -> Option<string>)
    ensures LeaderHost(info, lookup) == "" <==>
              info.None? || (info.value.hostname != "" && lookup(info.value.hostname) == Some(""))
  {
    if info.Some? && info.value.hostname == "" {
      ParseQuadDottedQuad(info.value.ip);
    }
  }

  /** The leader part of the Mesos poller, with the once-only start signal. */
  class LeaderRecord {
    var host: string
    var port: string
    /** Whether startedOnce has run, i.e. the started channel is closed. */
    var started: bool
    /** How many times the started channel was closed. */
    ghost var closes: nat

    constructor ()
      ensures host == "" && port == "" && !started && closes == 0
    {
      host := "";
      port := "";
      started := false;
      closes := 0;
    }

    /** The OnMasterChanged callback of leaderDetect. The port becomes the
        info's port only when a host was recorded; otherwise it keeps its
        value. The start signal is given on the first call only. */
    method OnMasterChanged(info: Option<MasterInfo>, lookup: string -> Option<string>)
      modifies this
      ensures host == LeaderHost(info, lookup)
      ensures host != "" ==> port == NatToString(info.value.port)
      ensures host == "" ==> port == old(port)
      ensures started
      ensures closes == if old(started) then old(closes) else old(closes) + 1
    {
      if info.None? {
        host := "";
      } else if info.value.hostname != "" {
        host := ToIP(info.value.hostname, lookup);
      } else {
        host := DottedQuad(info.value.ip);
      }
      if |host| > 0 {
        port := NatToString(info.value.port);
      }
      if !started {
        started := true;
        closes := closes + 1;
      }
    }

    /** getLeader */
    method GetLeader() returns (h: string, p: string)
      ensures h == host && p == port
    {
      h, p := host, port;
    }
  }

  /** However many callbacks arrive, the start signal is given once. */
  method Callbacks(rec: LeaderRecord, infos: seq<Option<MasterInfo>>, lookup: string -> Option<string>)
    requires !rec.started && rec.closes == 0
    modifies rec
    ensures rec.closes == (if infos == [] then 0 else 1)
    ensures infos != [] ==> rec.host == LeaderHost(infos[|infos| - 1], lookup)
  {
    var i := 0;
    while i < |infos|
      invariant 0 <= i <= |infos|
      invariant rec.started <==> i > 0
      invariant rec.closes == (if i == 0 then 0 else 1)
      invariant i > 0 ==> rec.host == LeaderHost(infos[i - 1], lookup)
    {
      rec.OnMasterChanged(infos[i], lookup);
      i := i + 1;
    }
  }
}
