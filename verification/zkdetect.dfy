/** mesos/zkdetect/detect.go: finding the leading Mesos master among the
    ZooKeeper children of the masters' path. Each master registers a node
    `info_<sequence>`; the lowest sequence number leads. Listing the
    children, reading a node's data and decoding it as a MasterInfo are
    parameters of the model; the watch loop, its goroutines and timers are
    not part of it, only its "master lost" rule is. */
module ZkDetect {
  import opened Wrappers
  import opened GoStrings
  import opened MesosTypes

  /** Children of the masters' path that take part in the election start with this. */
  const NodePrefix: string := "info_"

  /** The parts of url.URL that parseZk reads. */
  datatype Url = Url(scheme: string, host: string, path: string)

  /** parseZk: the comma-separated hosts and the path of a `zk://` URL. The
      URL parser is the parameter `parse`; its error is passed on. */
  function ParseZk(zkurls: string, parse: string -> Result<Url>): (r: Result<(seq<string>, string)>)
    ensures parse(zkurls).Err? ==> r == Err(parse(zkurls).error)
    ensures parse(zkurls).Ok? && parse(zkurls).value.scheme != "zk" ==>
              r == Err("invalid url scheme for zk url: '" + parse(zkurls).value.scheme + "'")
    ensures r.Ok? ==> |r.value.0| >= 1 && r.value.1 == parse(zkurls).value.path
  {
    match parse(zkurls)
    case Err(e) => Err(e)
    case Ok(u) =>
      if u.scheme != "zk" then Err("invalid url scheme for zk url: '" + u.scheme + "'")
      else Ok((Split(u.host, ','), u.path))
  }

  /** The hosts of a `zk://` URL are given back in order, as they were listed. */
  lemma ParseZkHosts(zkurls: string, parse: string -> Result<Url>, hosts: seq<string>, path: string)
    requires |hosts| >= 1 && forall k | 0 <= k < |hosts| :: ',' !in hosts[k]
    requires parse(zkurls) == Ok(Url("zk", Join(hosts, ','), path))
    ensures ParseZk(zkurls, parse) == Ok((hosts, path))
  {
    SplitJoin(hosts, ',');
  }

  /** The sequence number of an election node: None for a child without the
      prefix or whose suffix strconv.ParseUint rejects. */
  function NodeSeq(v: string): (r: Option<nat>)
    ensures r.Some? ==> HasPrefix(v, NodePrefix) && r.value <= MaxUint64
  {
    if HasPrefix(v, NodePrefix) then ParseUint64(TrimPrefix(v, NodePrefix)) else None
  }

  /** A node selectTopNode can pick: its sequence number is below the
      starting bound MaxUint64 of the strict comparison. */
  predicate Selectable(v: string)
  {
    NodeSeq(v).Some? && NodeSeq(v).value < MaxUint64
  }

  /** selectTopNode's (node, leaderSeq) after visiting `list`. */
  function Top(list: seq<string>): (r: (string, nat))
    ensures r.1 <= MaxUint64
  {
    if list == [] then ("", MaxUint64)
    else
      var before := Top(list[..|list| - 1]);
      var v := list[|list| - 1];
      if NodeSeq(v).Some? && NodeSeq(v).value < before.1 then (v, NodeSeq(v).value) else before
  }

  /** The position of the node Top picks, -1 when none. */
  function TopIndex(list: seq<string>): (i: int)
    ensures -1 <= i < |list|
  {
    if list == [] then -1
    else
      var v := list[|list| - 1];
      if NodeSeq(v).Some? && NodeSeq(v).value < Top(list[..|list| - 1]).1 then |list| - 1
      else TopIndex(list[..|list| - 1])
  }

  /** What selectTopNode picks: nothing when no node is selectable; otherwise
      the first of the selectable nodes with the smallest sequence number. */
  lemma {:induction false} TopIsEarliestMinimum(list: seq<string>)
    ensures var i, n, s := TopIndex(list), Top(list).0, Top(list).1;
            && (i == -1 <==> forall k | 0 <= k < |list| :: !Selectable(list[k]))
            && (i == -1 ==> n == "" && s == MaxUint64)
            && (i >= 0 ==>
                  && list[i] == n && n != "" && NodeSeq(n) == Some(s) && s < MaxUint64
                  && (forall k | 0 <= k < |list| && NodeSeq(list[k]).Some? :: s <= NodeSeq(list[k]).value)
                  && (forall k | 0 <= k < i && NodeSeq(list[k]).Some? :: s < NodeSeq(list[k]).value))
  {
    if list != [] {
      var init := list[..|list| - 1];
      TopIsEarliestMinimum(init);
      assert forall k | 0 <= k < |init| :: init[k] == list[k];
    }
  }

  /** The picked node is one of the children. */
  lemma TopIsListed(list: seq<string>)
    ensures Top(list).0 == "" || Top(list).0 in list
  {
    TopIsEarliestMinimum(list);
  }

  /** selectTopNode */
  method SelectTopNode(list: seq<string>) returns (node: string)
    ensures node == Top(list).0
  {
    var leaderSeq: nat := MaxUint64;
    node := "";
    var i := 0;
    while i < |list|
      invariant 0 <= i <= |list|
      invariant (node, leaderSeq) == Top(list[..i])
    {
      var v := list[i];
      assert list[..i + 1][..i] == list[..i];
      var q := NodeSeq(v);
      if q.Some? && q.value < leaderSeq {
        leaderSeq := q.value;
        node := v;
      }
      i := i + 1;
    }
    assert list[..i] == list;
  }

  /** An election node's sequence number is the value of its digits. */
  lemma NodeSeqOfDigits(d: string)
    requires IsDecimal(d) && DecimalValue(d) <= MaxUint64
    ensures NodeSeq(NodePrefix + d) == Some(DecimalValue(d))
  {
    assert (NodePrefix + d)[..|NodePrefix|] == NodePrefix;
    assert (NodePrefix + d)[|NodePrefix|..] == d;
  }

  /** A run of zeros is worth nothing. */
  lemma {:induction false} ZerosValue(z: string)
    requires forall k | 0 <= k < |z| :: z[k] == '0'
    ensures AllDigits(z) && DecimalValue(z) == 0
  {
    if z != [] {
      ZerosValue(z[..|z| - 1]);
    }
  }

  /** The name ZooKeeper gives the sequential node `n` (below 100): ten
      digits, zero-padded. */
  function PaddedName(n: nat): string
    requires n < 100
  {
    NodePrefix + "00000000" + [DigitChar(n / 10), DigitChar(n % 10)]
  }

  lemma PaddedNameSeq(n: nat)
    requires n < 100
    ensures NodeSeq(PaddedName(n)) == Some(n)
  {
    var z, d := "00000000", "00000000" + [DigitChar(n / 10), DigitChar(n % 10)];
    ZerosValue(z);
    assert d[..|d| - 1] == z + [DigitChar(n / 10)];
    assert (z + [DigitChar(n / 10)])[..|z|] == z;
    assert IsDecimal(d);
    NodeSeqOfDigits(d);
    assert PaddedName(n) == NodePrefix + d;
  }

  /** A child whose name does not start like the prefix takes no part. */
  lemma NotElected(v: string)
    requires v != [] && v[0] != 'i'
    ensures NodeSeq(v).None?
  {
    if |v| >= |NodePrefix| {
      assert v[..|NodePrefix|][0] != NodePrefix[0];
    }
  }

  /** Top, one child further. */
  lemma TopSnoc(list: seq<string>, v: string)
    ensures Top(list + [v]) ==
              if NodeSeq(v).Some? && NodeSeq(v).value < Top(list).1 then (v, NodeSeq(v).value) else Top(list)
  {
    assert (list + [v])[..|list|] == list;
  }

  /** The shape of the mixed listing of the detector's tests: sequence
      numbers 46, 32, none, 61, none, none. */
  lemma MixedShapeTop(a: string, b: string, c: string, d: string, e: string, f: string)
    requires NodeSeq(a) == Some(46) && NodeSeq(b) == Some(32) && NodeSeq(d) == Some(61)
    requires NodeSeq(c).None? && NodeSeq(e).None? && NodeSeq(f).None?
    ensures Top([a, b, c, d, e, f]) == (b, 32)
  {
    var l1, l2, l3, l4, l5 := [a], [a, b], [a, b, c], [a, b, c, d], [a, b, c, d, e];
    TopSnoc([], a);
    assert l1 == [] + [a];
    TopSnoc(l1, b);
    assert l2 == l1 + [b];
    TopSnoc(l2, c);
    assert l3 == l2 + [c];
    TopSnoc(l3, d);
    assert l4 == l3 + [d];
    TopSnoc(l4, e);
    assert l5 == l4 + [e];
    TopSnoc(l5, f);
    assert [a, b, c, d, e, f] == l5 + [f];
  }

  lemma PaddedName32()
    ensures PaddedName(32) == "info_0000000032"
  {
  }

  /** The mixed listing of the detector's tests: nodes without the prefix
      are skipped and the lowest sequence number among the others wins. */
  lemma MixedEntriesExample()
    ensures Top([PaddedName(46), PaddedName(32), "foo_lskdjfglsdkfsdfgdfg",
                 PaddedName(61), "log_replicas_fdgwsdfgsdf", "bar"]).0 == "info_0000000032"
  {
    PaddedNameSeq(46);
    PaddedNameSeq(32);
    PaddedNameSeq(61);
    NotElected("foo_lskdjfglsdkfsdfgdfg");
    NotElected("log_replicas_fdgwsdfgsdf");
    NotElected("bar");
    MixedShapeTop(PaddedName(46), PaddedName(32), "foo_lskdjfglsdkfsdfgdfg",
                  PaddedName(61), "log_replicas_fdgwsdfgsdf", "bar");
    PaddedName32();
  }

  /** A ClusterInfo: the leader's MasterInfo, if found, and the other masters. */
  datatype ClusterInfo = ClusterInfo(leader: Option<MasterInfo>, masters: seq<MasterInfo>)

  /** The ZooKeeper path of a child node. */
  function NodePath(path: string, v: string): string
  {
    path + "/" + v
  }

  /** The cluster info childrenChanged builds from `list`, the leader node
      being `leaderNode`: None when reading some election node fails.
      `fetch` reads and decodes a node (a decoding error is only logged
      there, so a decoded MasterInfo is used either way). */
  function Gather(path: string, list: seq<string>, leaderNode: string, fetch: string -> Option<MasterInfo>): Option<ClusterInfo>
  {
    if list == [] then Some(ClusterInfo(None, []))
    else
      var v := list[|list| - 1];
      match Gather(path, list[..|list| - 1], leaderNode, fetch)
      case None => None
      case Some(ci) =>
        if NodeSeq(v).None? then Some(ci)
        else
          match fetch(NodePath(path, v))
          case None => None
          case Some(info) =>
            if v == leaderNode then Some(ci.(leader := Some(info)))
            else Some(ci.(masters := ci.masters + [info]))
  }

  /** The election nodes of `list` other than `leaderNode`, in order. */
  function Followers(list: seq<string>, leaderNode: string): seq<string>
  {
    if list == [] then []
    else
      var v := list[|list| - 1];
      Followers(list[..|list| - 1], leaderNode) + (if NodeSeq(v).Some? && v != leaderNode then [v] else [])
  }

  /** When every node can be read, the leader is found exactly when the
      leader node is an election node of the list, and the masters are the
      other election nodes, in list order. */
  lemma {:induction false} GatherContents(path: string, list: seq<string>, leaderNode: string, fetch: string -> Option<MasterInfo>)
    requires Gather(path, list, leaderNode, fetch).Some?
    ensures var ci := Gather(path, list, leaderNode, fetch).value;
            && (ci.leader.Some? <==> NodeSeq(leaderNode).Some? && leaderNode in list)
            && (ci.leader.Some? ==> Some(ci.leader.value) == fetch(NodePath(path, leaderNode)))
            && |ci.masters| == |Followers(list, leaderNode)|
            && forall k | 0 <= k < |ci.masters| :: Some(ci.masters[k]) == fetch(NodePath(path, Followers(list, leaderNode)[k]))
  {
    if list != [] {
      var init := list[..|list| - 1];
      GatherContents(path, init, leaderNode, fetch);
      assert forall x | x in init :: x in list;
      assert leaderNode in list <==> leaderNode in init || leaderNode == list[|list| - 1];
    }
  }

  /** Gather fails exactly when reading some election node fails. */
  lemma {:induction false} GatherFails(path: string, list: seq<string>, leaderNode: string, fetch: string -> Option<MasterInfo>)
    ensures Gather(path, list, leaderNode, fetch).None? <==>
              exists k | 0 <= k < |list| :: NodeSeq(list[k]).Some? && fetch(NodePath(path, list[k])).None?
  {
    if list != [] {
      var init := list[..|list| - 1];
      GatherFails(path, init, leaderNode, fetch);
      assert forall k | 0 <= k < |init| :: init[k] == list[k];
      var last := |list| - 1;
      if Gather(path, init, leaderNode, fetch).None? {
        var k :| 0 <= k < |init| && NodeSeq(init[k]).Some? && fetch(NodePath(path, init[k])).None?;
        assert NodeSeq(list[k]).Some? && fetch(NodePath(path, list[k])).None?;
      } else if NodeSeq(list[last]).Some? && fetch(NodePath(path, list[last])).None? {
      } else {
        forall k | 0 <= k < |list| && NodeSeq(list[k]).Some?
          ensures fetch(NodePath(path, list[k])).Some?
        {
          if k < last {
            assert list[k] == init[k];
          }
        }
      }
    }
  }

  class ClusterDetector {
    var leaderNode: string
    /** The notifications sent to the listener; None stands for nil. */
    ghost var notified: seq<Option<ClusterInfo>>

    constructor ()
      ensures leaderNode == "" && notified == []
    {
      leaderNode := "";
      notified := [];
    }

    /** childrenChanged: a failed listing changes nothing. Otherwise the top
        node becomes the leader node, and the listener hears of the cluster
        once, unless reading some election node fails. */
    method ChildrenChanged(path: string, listing: Option<seq<string>>, fetch: string -> Option<MasterInfo>)
      modifies this
      ensures listing.None? ==> leaderNode == old(leaderNode) && notified == old(notified)
      ensures listing.Some? ==>
                && leaderNode == Top(listing.value).0
                && notified == old(notified) + match Gather(path, listing.value, leaderNode, fetch)
                                                case None => []
                                                case Some(ci) => [Some(ci)]
    {
      if listing.None? {
        return;
      }
      var list := listing.value;
      var topNode := SelectTopNode(list);
      leaderNode := topNode;
      var info := ClusterInfo(None, []);
      var i := 0;
      while i < |list|
        invariant 0 <= i <= |list|
        invariant leaderNode == topNode && notified == old(notified)
        invariant Gather(path, list[..i], topNode, fetch) == Some(info)
      {
        var v := list[i];
        assert list[..i + 1][..i] == list[..i];
        if NodeSeq(v).Some? {
          var data := fetch(NodePath(path, v));
          if data.None? {
            assert Gather(path, list[..i + 1], topNode, fetch).None?;
            GatherStaysNone(path, list, i + 1, topNode, fetch);
            return;
          }
          if v == leaderNode {
            info := info.(leader := Some(data.value));
          } else {
            info := info.(masters := info.masters + [data.value]);
          }
        }
        i := i + 1;
      }
      assert list[..i] == list;
      notified := notified + [Some(info)];
    }

    /** The watch ended: with a leader node known, it is forgotten and the
        listener is told (nil) once; with none, nothing happens. */
    method MasterLost()
      modifies this
      ensures leaderNode == ""
      ensures old(leaderNode) != "" ==> notified == old(notified) + [None]
      ensures old(leaderNode) == "" ==> notified == old(notified)
    {
      if leaderNode != "" {
        leaderNode := "";
        notified := notified + [None];
      }
    }
  }

  /** Once reading a node has failed, the rest of the list does not matter. */
  lemma {:induction false} GatherStaysNone(path: string, list: seq<string>, i: nat, leaderNode: string, fetch: string -> Option<MasterInfo>)
    requires i <= |list| && Gather(path, list[..i], leaderNode, fetch).None?
    ensures Gather(path, list, leaderNode, fetch).None?
    decreases |list| - i
  {
    if i < |list| {
      assert list[..i + 1][..i] == list[..i];
      GatherStaysNone(path, list, i + 1, leaderNode, fetch);
    } else {
      assert list[..i] == list;
    }
  }
}
