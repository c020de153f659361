/** mesos/mesos.go: one refresh of the poller. The leader's state document
    is fetched (once more from the leader it names, when that differs), each
    running task with a known follower and a port range becomes one service
    per port, every service is handed to the registration logic, and a
    final sweep removes what was not seen. The HTTP fetch and DNS lookups
    are parameters; the calls on the registration logic are returned as a
    trace. */
module MesosRefresh {
  import opened Wrappers
  import opened GoStrings
  import opened MesosTypes
  import opened MesosUtil
  import opened MesosFollower

  /** registry.Service, the fields parseState sets. */
  datatype Service = Service(id: string, name: string, port: int, ip: string)

  /** A call parseState makes: m.register(r, s) or m.deregister(r). */
  datatype PollCall = Register(service: Service) | Deregister

  // ---------------------------------------------------------------- yankPorts

  /** The range texts of a ports resource: what lies between the first `[`
      and the next `]`, split at commas. None stands for the index panic of
      a text without `[`. */
  function RangeTexts(ports: string): (r: Option<seq<string>>)
    ensures r.Some? <==> '[' in ports
  {
    if '[' in ports then
      SplitSecond(ports, '[');
      var rhs := Split(ports, '[')[1];
      Some(Split(Split(rhs, ']')[0], ','))
    else None
  }

  /** The integers lo..hi, both included; empty when lo > hi. */
  function Span(lo: int, hi: int): (r: seq<int>)
    ensures |r| == if lo <= hi then hi - lo + 1 else 0
    decreases hi - lo
  {
    if lo > hi then [] else Span(lo, hi - 1) + [hi]
  }

  /** The k-th port of a range is lo + k. */
  lemma {:induction false} SpanAt(lo: int, hi: int, k: nat)
    requires k < |Span(lo, hi)|
    ensures Span(lo, hi)[k] == lo + k
    decreases hi - lo
  {
    if k < hi - lo {
      SpanAt(lo, hi - 1, k);
    }
  }

  /** A range whose loop `for t := lo; t <= hi; t++` never stops: t wraps
      around from the largest int64 to the smallest, which is still <= hi. */
  predicate Endless(lo: int, hi: int)
  {
    lo <= hi && hi == MaxInt64
  }

  /** The bounds of one range text: the numbers before and after its first
      `-`, white space trimmed. None when there is no `-` (the index panic);
      bad numbers read as 0, as Atoi's value is used without its error. */
  function Bounds(mport: string): Option<(int, int)>
  {
    var pz := Split(TrimSpace(mport), '-');
    if |pz| < 2 then None else Some((Atoi(pz[0]), Atoi(pz[1])))
  }

  /** The bounds of every range in turn; None when a range has no `-` or
      never ends. */
  function RangeBounds(mports: seq<string>): (r: Option<seq<(int, int)>>)
    ensures r.Some? ==> |r.value| == |mports|
  {
    if mports == [] then Some([])
    else
      match RangeBounds(mports[..|mports| - 1])
      case None => None
      case Some(bs) =>
        match Bounds(mports[|mports| - 1])
        case None => None
        case Some(b) => if Endless(b.0, b.1) then None else Some(bs + [b])
  }

  /** The ports of the ranges, range after range. */
  function Expand(bs: seq<(int, int)>): seq<int>
  {
    if bs == [] then [] else Expand(bs[..|bs| - 1]) + Span(bs[|bs| - 1].0, bs[|bs| - 1].1)
  }

  /** What yankPorts returns; None where it panics or does not return. */
  function Yank(ports: string): Option<seq<int>>
  {
    match RangeTexts(ports)
    case None => None
    case Some(mports) => YankTexts(mports)
  }

  /** The ports of the range texts; None where a range fails. */
  function YankTexts(mports: seq<string>): Option<seq<int>>
  {
    match RangeBounds(mports)
    case None => None
    case Some(bs) => Some(Expand(bs))
  }

  /** Once a range fails, the ranges after it do not matter. */
  lemma {:induction false} RangeBoundsStaysNone(mports: seq<string>, i: nat)
    requires i <= |mports| && RangeBounds(mports[..i]).None?
    ensures RangeBounds(mports).None?
    decreases |mports| - i
  {
    if i < |mports| {
      assert mports[..i + 1][..i] == mports[..i];
      RangeBoundsStaysNone(mports, i + 1);
    } else {
      assert mports[..i] == mports;
    }
  }

  /** yankPorts */
  method YankPorts(ports: string) returns (r: Option<seq<int>>)
    ensures r == Yank(ports)
  {
    if '[' !in ports {
      return None;
    }
    SplitSecond(ports, '[');
    var rhs := Split(ports, '[')[1];
    var lhs := Split(rhs, ']')[0];
    var mports := Split(lhs, ',');
    r := YankRanges(mports);
  }

  /** One more range that ends adds its ports after those of the ranges before it. */
  lemma YankTextsStep(mports: seq<string>, i: nat, ys: seq<int>, b: (int, int))
    requires i < |mports| && YankTexts(mports[..i]) == Some(ys)
    requires Bounds(mports[i]) == Some(b) && !Endless(b.0, b.1)
    ensures YankTexts(mports[..i + 1]) == Some(ys + Span(b.0, b.1))
  {
    var bs := RangeBounds(mports[..i]).value;
    RangeBoundsSnoc(mports, i, bs, b);
    ExpandSnoc(bs, b);
  }

  lemma RangeBoundsSnoc(mports: seq<string>, i: nat, bs: seq<(int, int)>, b: (int, int))
    requires i < |mports| && RangeBounds(mports[..i]) == Some(bs)
    requires Bounds(mports[i]) == Some(b) && !Endless(b.0, b.1)
    ensures RangeBounds(mports[..i + 1]) == Some(bs + [b])
  {
    PrefixSnoc(mports, i);
    RangeBoundsOfSnoc(mports[..i], mports[i]);
  }

  /** RangeBounds of a list with one more text is read off its last step. */
  lemma RangeBoundsOfSnoc(init: seq<string>, last: string)
    ensures RangeBounds(init + [last]) ==
              match RangeBounds(init)
              case None => None
              case Some(bs) =>
                match Bounds(last)
                case None => None
                case Some(b) => if Endless(b.0, b.1) then None else Some(bs + [b])
  {
    assert (init + [last])[..|init|] == init;
  }

  lemma ExpandSnoc(bs: seq<(int, int)>, b: (int, int))
    ensures Expand(bs + [b]) == Expand(bs) + Span(b.0, b.1)
  {
    assert (bs + [b])[..|bs|] == bs;
  }

  /** A range without a dash, or one that never ends, fails the whole list. */
  lemma YankTextsFails(mports: seq<string>, i: nat)
    requires i < |mports| && YankTexts(mports[..i]).Some?
    requires Bounds(mports[i]).None? || Endless(Bounds(mports[i]).value.0, Bounds(mports[i]).value.1)
    ensures YankTexts(mports).None?
  {
    assert mports[..i + 1][..i] == mports[..i];
    RangeBoundsStaysNone(mports, i + 1);
  }

  /** The loop of yankPorts over the range texts. */
  method YankRanges(mports: seq<string>) returns (r: Option<seq<int>>)
    ensures r == YankTexts(mports)
  {
    var yports: seq<int> := [];
    var i := 0;
    while i < |mports|
      invariant 0 <= i <= |mports|
      invariant YankTexts(mports[..i]) == Some(yports)
    {
      var b := Bounds(mports[i]);
      if b.None? || Endless(b.value.0, b.value.1) {
        YankTextsFails(mports, i);
        return None;
      }
      YankTextsStep(mports, i, yports, b.value);
      yports := AppendRange(yports, b.value.0, b.value.1);
      i := i + 1;
    }
    assert mports[..i] == mports;
    return Some(yports);
  }

  /** The loop `for t := lo; t <= hi; t++ { yports = append(yports, t) }`
      of a range that ends. */
  method AppendRange(yports: seq<int>, lo: int, hi: int) returns (r: seq<int>)
    ensures r == yports + Span(lo, hi)
  {
    r := yports;
    var t := lo;
    while t <= hi
      invariant lo <= t && (lo <= hi ==> t <= hi + 1) && (lo > hi ==> t == lo)
      invariant r == yports + Span(lo, t - 1)
      decreases hi - t
    {
      r := r + [t];
      t := t + 1;
    }
    assert t - 1 == hi || (lo > hi && t == lo);
  }

  /** The number of ports in a range: hi - lo + 1, or none when lo > hi. */
  function Width(lo: int, hi: int): nat
  {
    if lo <= hi then hi - lo + 1 else 0
  }

  function TotalWidth(bs: seq<(int, int)>): nat
  {
    if bs == [] then 0 else TotalWidth(bs[..|bs| - 1]) + Width(bs[|bs| - 1].0, bs[|bs| - 1].1)
  }

  /** The ports are as many as the ranges are wide. */
  lemma {:induction false} ExpandLength(bs: seq<(int, int)>)
    ensures |Expand(bs)| == TotalWidth(bs)
  {
    if bs != [] {
      ExpandLength(bs[..|bs| - 1]);
    }
  }

  /** Ranges are expanded in the order they are listed. */
  lemma {:induction false} ExpandAppend(a: seq<(int, int)>, b: seq<(int, int)>)
    ensures Expand(a + b) == Expand(a) + Expand(b)
  {
    if b == [] {
      assert a + b == a;
    } else {
      var init, last := b[..|b| - 1], b[|b| - 1];
      assert (a + b)[..|a + b| - 1] == a + init;
      assert (a + b)[|a + b| - 1] == last;
      var sp := Span(last.0, last.1);
      assert Expand(a + b) == Expand(a + init) + sp;
      ExpandAppend(a, init);
      ConcatAssoc(Expand(a), Expand(init), sp);
    }
  }

  /** How Mesos writes one range: "lo-hi", a space before every range but the first. */
  function RangeText(lo: nat, hi: nat, first: bool): string
  {
    (if first then "" else " ") + NatToString(lo) + "-" + NatToString(hi)
  }

  function RangeItems(bs: seq<(nat, nat)>): (items: seq<string>)
    ensures |items| == |bs|
  {
    if bs == [] then []
    else RangeItems(bs[..|bs| - 1]) + [RangeText(bs[|bs| - 1].0, bs[|bs| - 1].1, |bs| == 1)]
  }

  /** A ports resource as Mesos writes it, such as "[31000-31002, 31005-31005]". */
  function RenderPorts(bs: seq<(nat, nat)>): string
  {
    "[" + Join(RangeItems(bs), ',') + "]"
  }

  /** Ranges with natural bounds below the largest int64. */
  predicate Printable(bs: seq<(nat, nat)>)
  {
    forall k | 0 <= k < |bs| :: bs[k].0 < MaxInt64 && bs[k].1 < MaxInt64
  }

  function Widen(bs: seq<(nat, nat)>): (r: seq<(int, int)>)
    ensures |r| == |bs|
    ensures forall k | 0 <= k < |bs| :: r[k] == (bs[k].0 as int, bs[k].1 as int)
  {
    if bs == [] then [] else Widen(bs[..|bs| - 1]) + [(bs[|bs| - 1].0 as int, bs[|bs| - 1].1 as int)]
  }

  lemma NoSpaceInDecimal(s: string)
    requires IsDecimal(s)
    ensures s != [] && !IsSpace(s[0]) && !IsSpace(s[|s| - 1])
    ensures '-' !in s && ',' !in s && '[' !in s && ']' !in s
  {
  }

  /** "a-b" neither starts nor ends with white space. */
  lemma DigitRangeEnds(a: string, b: string)
    requires IsDecimal(a) && IsDecimal(b)
    ensures var t := a + "-" + b; t != [] && !IsSpace(t[0]) && !IsSpace(t[|t| - 1])
  {
    assert IsDigit(a[0]) && IsDigit(b[|b| - 1]);
    var t := a + "-" + b;
    assert t[0] == a[0];
    assert t[|t| - 1] == b[|b| - 1];
  }

  /** "a-b", after an optional space, trims to "a-b". */
  lemma TrimDigitRange(pad: string, a: string, b: string)
    requires pad == "" || pad == " "
    requires IsDecimal(a) && IsDecimal(b)
    ensures TrimSpace(pad + (a + "-" + b)) == a + "-" + b
  {
    DigitRangeEnds(a, b);
    TrimSpaceOptionalPad(pad, a + "-" + b);
  }

  /** "a-b" splits at the dash into a and b. */
  lemma SplitDigitRange(a: string, b: string)
    requires IsDecimal(a) && IsDecimal(b)
    ensures Split(a + "-" + b, '-') == [a, b]
  {
    NoSpaceInDecimal(a);
    NoSpaceInDecimal(b);
    assert a + "-" + b == a + ['-'] + b;
    SplitTwo(a, b, '-');
  }

  /** The text of one range reads back as its bounds. */
  lemma RangeTextBounds(lo: nat, hi: nat, first: bool)
    requires lo < MaxInt64 && hi < MaxInt64
    ensures Bounds(RangeText(lo, hi, first)) == Some((lo as int, hi as int))
  {
    var pad, a, b := if first then "" else " ", NatToString(lo), NatToString(hi);
    assert RangeText(lo, hi, first) == pad + (a + "-" + b);
    TrimDigitRange(pad, a, b);
    SplitDigitRange(a, b);
    AtoiNatToString(lo);
    AtoiNatToString(hi);
  }

  /** A range text holds no separator of the ports syntax. */
  lemma RangeTextChars(lo: nat, hi: nat, first: bool)
    ensures ',' !in RangeText(lo, hi, first) && '[' !in RangeText(lo, hi, first) && ']' !in RangeText(lo, hi, first)
  {
    NoSpaceInDecimal(NatToString(lo));
    NoSpaceInDecimal(NatToString(hi));
  }

  lemma {:induction false} RangeBoundsOfItems(bs: seq<(nat, nat)>)
    requires Printable(bs)
    ensures RangeBounds(RangeItems(bs)) == Some(Widen(bs))
  {
    if bs != [] {
      var init, last := bs[..|bs| - 1], bs[|bs| - 1];
      var items := RangeItems(bs);
      assert items[..|items| - 1] == RangeItems(init);
      RangeBoundsOfItems(init);
      RangeTextBounds(last.0, last.1, |bs| == 1);
      assert Widen(bs) == Widen(init) + [(last.0 as int, last.1 as int)];
    }
  }

  lemma {:induction false} ItemsAvoid(bs: seq<(nat, nat)>, c: char)
    requires c == ',' || c == '[' || c == ']'
    ensures forall k | 0 <= k < |bs| :: c !in RangeItems(bs)[k]
  {
    if bs != [] {
      var init := bs[..|bs| - 1];
      ItemsAvoid(init, c);
      RangeTextChars(bs[|bs| - 1].0, bs[|bs| - 1].1, |bs| == 1);
      assert forall k | 0 <= k < |init| :: RangeItems(bs)[k] == RangeItems(init)[k];
    }
  }

  /** Text between one pair of brackets, with no bracket inside, is what
      yankPorts splits at the commas. */
  lemma BracketedTexts(j: string)
    requires '[' !in j && ']' !in j
    ensures RangeTexts("[" + j + "]") == Some(Split(j, ','))
  {
    SplitAtFirst("", '[', j + "]");
    assert "[" + j + "]" == "" + "[" + (j + "]");
    SplitNone(j + "]", '[');
    SplitAtFirst(j, ']', "");
    assert j + "]" == j + "]" + "";
  }

  /** A rendered resource splits back into the texts of its ranges. */
  lemma RenderedTexts(bs: seq<(nat, nat)>)
    requires |bs| >= 1 && Printable(bs)
    ensures RangeTexts(RenderPorts(bs)) == Some(RangeItems(bs))
  {
    var items := RangeItems(bs);
    ItemsAvoid(bs, ',');
    ItemsAvoid(bs, '[');
    ItemsAvoid(bs, ']');
    JoinAvoids(items, ',', '[');
    JoinAvoids(items, ',', ']');
    BracketedTexts(Join(items, ','));
    SplitJoin(items, ',');
  }

  /** yankPorts reads back every ports resource written as Mesos writes
      it: the ports of each range, in the order of the ranges. */
  lemma YankRenderPorts(bs: seq<(nat, nat)>)
    requires |bs| >= 1 && Printable(bs)
    ensures Yank(RenderPorts(bs)) == Some(Expand(Widen(bs)))
  {
    RenderedTexts(bs);
    RangeBoundsOfItems(bs);
  }

  // ---------------------------------------------------------------- loadState

  /** The result of loadState and the (address, port) pairs it fetched the
      state document from. An empty leader address fails without a fetch.
      When the document names a different leader, it is fetched again, once,
      from that leader with the same port. A leader field without `@` makes
      leaderIP panic; loadState recovers and, its results being unnamed,
      returns the zero StateJSON and no error. */
  function LoadState(ip: string, port: string, fetch: (string, string) -> StateJSON): (r: (Result<StateJSON>, seq<(string, string)>))
    ensures ip == "" <==> r.1 == []
    ensures ip == "" ==> r.0 == Err("No master in zookeeper")
    ensures ip != "" ==> r.0.Ok? && 1 <= |r.1| <= 2 && r.1[0] == (ip, port)
    ensures |r.1| == 2 <==> ip != "" && LeaderIP(fetch(ip, port).leader).Some? && LeaderIP(fetch(ip, port).leader).value != ip
    ensures |r.1| == 2 ==> r.1[1] == (LeaderIP(fetch(ip, port).leader).value, port) && r.0 == Ok(fetch(r.1[1].0, port))
    ensures |r.1| == 1 && LeaderIP(fetch(ip, port).leader).Some? ==> r.0 == Ok(fetch(ip, port))
    ensures |r.1| == 1 && LeaderIP(fetch(ip, port).leader).None? ==> r.0 == Ok(EmptyState)
  {
    if ip == "" then (Err("No master in zookeeper"), [])
    else
      var sj := fetch(ip, port);
      match LeaderIP(sj.leader)
      case None => (Ok(EmptyState), [(ip, port)])
      case Some(rip) =>
        if rip != ip then (Ok(fetch(rip, port)), [(ip, port), (rip, port)])
        else (Ok(sj), [(ip, port)])
  }

  /** A document that names the queried leader is fetched only once. */
  lemma LoadStateStable(ip: string, port: string, fetch: (string, string) -> StateJSON, name: string, rest: string)
    requires ip != "" && '@' !in name && '@' !in ip && ':' !in ip && '@' !in rest
    requires fetch(ip, port).leader == name + "@" + ip + ":" + rest
    ensures LoadState(ip, port, fetch) == (Ok(fetch(ip, port)), [(ip, port)])
  {
    LeaderIPRoundTrip(name, ip, rest);
  }

  /** The error loadState's deferred recover means to return. */
  const CantConnect := "can't connect to Mesos"

  /** loadState as its deferred recover intends: a leader field without `@`
      makes the call fail with CantConnect. Otherwise it is the same call as
      written, with the same fetches. */
  function LoadStateIntended(ip: string, port: string, fetch: (string, string) -> StateJSON): (r: (Result<StateJSON>, seq<(string, string)>))
    ensures r.1 == LoadState(ip, port, fetch).1
    ensures r.0.Err? <==> ip == "" || '@' !in fetch(ip, port).leader
    ensures ip != "" && '@' !in fetch(ip, port).leader ==> r.0 == Err(CantConnect)
    ensures r.0.Ok? ==> r.0 == LoadState(ip, port, fetch).0
  {
    var (res, fetched) := LoadState(ip, port, fetch);
    if ip != "" && LeaderIP(fetch(ip, port).leader).None? then (Err(CantConnect), fetched)
    else (res, fetched)
  }

  /** As written, the recover assigns a local that is never returned: the
      recovered call succeeds with the empty state, whose empty leader a
      refresh then reports as "Empty master"; the intended call fails with
      CantConnect. */
  lemma RecoveredPanicLosesError(ip: string, port: string, fetch: (string, string) -> StateJSON)
    requires ip != "" && '@' !in fetch(ip, port).leader
    ensures LoadState(ip, port, fetch).0 == Ok(EmptyState) && EmptyState.leader == ""
    ensures LoadStateIntended(ip, port, fetch).0 == Err(CantConnect)
  {
  }

  // --------------------------------------------------------------- parseState

  /** The service parseState builds for one port of a task on `host`. */
  function PortService(host: string, tname: string, port: int, lookup: string -> Option<string>): Service
  {
    Service(host + ":" + tname + ":" + IntToString(port), tname, port, ToIP(host, lookup))
  }

  function PortServices(host: string, tname: string, ports: seq<int>, lookup: string -> Option<string>): (ss: seq<Service>)
    ensures |ss| == |ports|
  {
    if ports == [] then []
    else PortServices(host, tname, ports[..|ports| - 1], lookup) + [PortService(host, tname, ports[|ports| - 1], lookup)]
  }

  /** One service per port, in the order of the ports. */
  lemma {:induction false} PortServicesAt(host: string, tname: string, ports: seq<int>, lookup: string -> Option<string>)
    ensures forall k | 0 <= k < |ports| :: PortServices(host, tname, ports, lookup)[k] == PortService(host, tname, ports[k], lookup)
  {
    if ports != [] {
      var init := ports[..|ports| - 1];
      var ss := PortServices(host, tname, init, lookup);
      var last := PortService(host, tname, ports[|ports| - 1], lookup);
      assert PortServices(host, tname, ports, lookup) == ss + [last];
      PortServicesAt(host, tname, init, lookup);
      forall k | 0 <= k < |ports|
        ensures (ss + [last])[k] == PortService(host, tname, ports[k], lookup)
      {
        if k < |init| {
          assert ports[k] == init[k];
        }
      }
    }
  }

  /** Whether parseState turns the task into services: it runs on a known follower and has ports. */
  predicate Serves(sj: StateJSON, task: Task)
  {
    HostById(sj.followers, task.followerId).Ok? && task.state == "TASK_RUNNING" && task.ports != ""
  }

  /** The services of one task; None where yankPorts panics or does not return. */
  function TaskServices(sj: StateJSON, task: Task, lookup: string -> Option<string>): Option<seq<Service>>
  {
    if !Serves(sj, task) then Some([])
    else
      match Yank(task.ports)
      case None => None
      case Some(ports) =>
        Some(PortServices(HostById(sj.followers, task.followerId).value, CleanName(task.name), ports, lookup))
  }

  function TasksServices(sj: StateJSON, tasks: seq<Task>, lookup: string -> Option<string>): Option<seq<Service>>
  {
    if tasks == [] then Some([])
    else
      match TasksServices(sj, tasks[..|tasks| - 1], lookup)
      case None => None
      case Some(ss) =>
        match TaskServices(sj, tasks[|tasks| - 1], lookup)
        case None => None
        case Some(more) => Some(ss + more)
  }

  function FrameworksServices(sj: StateJSON, fws: seq<Framework>, lookup: string -> Option<string>): Option<seq<Service>>
  {
    if fws == [] then Some([])
    else
      match FrameworksServices(sj, fws[..|fws| - 1], lookup)
      case None => None
      case Some(ss) =>
        match TasksServices(sj, fws[|fws| - 1].tasks, lookup)
        case None => None
        case Some(more) => Some(ss + more)
  }

  /** The services registered, task by task, up to the first task whose
      ports make yankPorts fail: all of them when none fails. */
  function TasksServicesBefore(sj: StateJSON, tasks: seq<Task>, lookup: string -> Option<string>): seq<Service>
  {
    if tasks == [] then []
    else
      match TaskServices(sj, tasks[0], lookup)
      case None => []
      case Some(ss) => ss + TasksServicesBefore(sj, tasks[1..], lookup)
  }

  /** The services registered, framework by framework, up to the first
      failing task, including those of the failing framework's earlier
      tasks: all of them when none fails. */
  function FrameworksServicesBefore(sj: StateJSON, fws: seq<Framework>, lookup: string -> Option<string>): seq<Service>
  {
    if fws == [] then []
    else
      match TasksServices(sj, fws[0].tasks, lookup)
      case None => TasksServicesBefore(sj, fws[0].tasks, lookup)
      case Some(ss) => ss + FrameworksServicesBefore(sj, fws[1..], lookup)
  }

  /** One step of the task loop: a task with services adds them to those
      registered so far; a failing task ends the registrations there. */
  lemma TasksBeforeStep(sj: StateJSON, tasks: seq<Task>, i: nat, lookup: string -> Option<string>, ss: seq<Service>)
    requires i < |tasks|
    requires TasksServicesBefore(sj, tasks, lookup) == ss + TasksServicesBefore(sj, tasks[i..], lookup)
    ensures TaskServices(sj, tasks[i], lookup).None? ==> TasksServicesBefore(sj, tasks, lookup) == ss
    ensures TaskServices(sj, tasks[i], lookup).Some? ==>
              (TasksServicesBefore(sj, tasks, lookup)
               == (ss + TaskServices(sj, tasks[i], lookup).value) + TasksServicesBefore(sj, tasks[i + 1..], lookup))
  {
    var rest := tasks[i..];
    assert rest[0] == tasks[i] && rest[1..] == tasks[i + 1..];
    TasksBeforeCons(sj, rest, lookup);
  }

  lemma TasksBeforeCons(sj: StateJSON, tasks: seq<Task>, lookup: string -> Option<string>)
    requires tasks != []
    ensures TasksServicesBefore(sj, tasks, lookup)
         == match TaskServices(sj, tasks[0], lookup)
            case None => []
            case Some(more) => more + TasksServicesBefore(sj, tasks[1..], lookup)
  {
  }

  /** One step of the framework loop: a framework whose tasks all have
      services adds them; a failing one adds its tasks' services up to the
      failing task and ends the registrations there. */
  lemma FrameworksBeforeStep(sj: StateJSON, fws: seq<Framework>, i: nat, lookup: string -> Option<string>, ss: seq<Service>)
    requires i < |fws|
    requires FrameworksServicesBefore(sj, fws, lookup) == ss + FrameworksServicesBefore(sj, fws[i..], lookup)
    ensures TasksServices(sj, fws[i].tasks, lookup).None? ==>
              FrameworksServicesBefore(sj, fws, lookup) == ss + TasksServicesBefore(sj, fws[i].tasks, lookup)
    ensures TasksServices(sj, fws[i].tasks, lookup).Some? ==>
              (FrameworksServicesBefore(sj, fws, lookup)
               == (ss + TasksServices(sj, fws[i].tasks, lookup).value) + FrameworksServicesBefore(sj, fws[i + 1..], lookup))
  {
    var rest := fws[i..];
    assert rest[0] == fws[i] && rest[1..] == fws[i + 1..];
    FrameworksBeforeCons(sj, rest, lookup);
  }

  lemma FrameworksBeforeCons(sj: StateJSON, fws: seq<Framework>, lookup: string -> Option<string>)
    requires fws != []
    ensures FrameworksServicesBefore(sj, fws, lookup)
         == match TasksServices(sj, fws[0].tasks, lookup)
            case None => TasksServicesBefore(sj, fws[0].tasks, lookup)
            case Some(more) => more + FrameworksServicesBefore(sj, fws[1..], lookup)
  {
  }

  /** One register call per service, in order. */
  function Registers(ss: seq<Service>): (calls: seq<PollCall>)
    ensures |calls| == |ss|
    ensures forall k | 0 <= k < |ss| :: calls[k] == Register(ss[k])
  {
    if ss == [] then [] else Registers(ss[..|ss| - 1]) + [Register(ss[|ss| - 1])]
  }

  /** The calls parseState makes: a register call per service of every
      framework's tasks, then one deregister. None where it panics. */
  function StateCalls(sj: StateJSON, lookup: string -> Option<string>): Option<seq<PollCall>>
  {
    match FrameworksServices(sj, sj.frameworks, lookup)
    case None => None
    case Some(ss) => Some(Registers(ss) + [Deregister])
  }

  lemma RegistersSnoc(ss: seq<Service>, more: seq<Service>)
    ensures Registers(ss + more) == Registers(ss) + Registers(more)
  {
  }

  /** Register calls for the ports of one task (the innermost loop). */
  method RegisterPorts(host: string, tname: string, ports: seq<int>, lookup: string -> Option<string>) returns (calls: seq<PollCall>)
    ensures calls == Registers(PortServices(host, tname, ports, lookup))
  {
    calls := [];
    var i := 0;
    while i < |ports|
      invariant 0 <= i <= |ports|
      invariant calls == Registers(PortServices(host, tname, ports[..i], lookup))
    {
      var s := Service(host + ":" + tname + ":" + IntToString(ports[i]), tname, ports[i], ToIP(host, lookup));
      PortCallsSnoc(host, tname, ports, i, lookup);
      calls := calls + [Register(s)];
      i := i + 1;
    }
    assert ports[..i] == ports;
  }

  lemma PortCallsSnoc(host: string, tname: string, ports: seq<int>, i: nat, lookup: string -> Option<string>)
    requires i < |ports|
    ensures Registers(PortServices(host, tname, ports[..i + 1], lookup)) ==
              Registers(PortServices(host, tname, ports[..i], lookup)) + [Register(PortService(host, tname, ports[i], lookup))]
  {
    var q := ports[..i + 1];
    assert q[..|q| - 1] == ports[..i];
    var ss := PortServices(host, tname, ports[..i], lookup);
    var last := PortService(host, tname, ports[i], lookup);
    assert PortServices(host, tname, q, lookup) == ss + [last];
    assert (ss + [last])[..|ss|] == ss;
  }

  /** The loop over one framework's tasks. */
  method RegisterTasks(sj: StateJSON, tasks: seq<Task>, lookup: string -> Option<string>) returns (calls: seq<PollCall>, completed: bool)
    ensures completed <==> TasksServices(sj, tasks, lookup).Some?
    ensures completed ==> calls == Registers(TasksServices(sj, tasks, lookup).value)
    ensures calls == Registers(TasksServicesBefore(sj, tasks, lookup))
  {
    calls := [];
    ghost var ss: seq<Service> := [];
    var i := 0;
    while i < |tasks|
      invariant 0 <= i <= |tasks|
      invariant TasksServices(sj, tasks[..i], lookup) == Some(ss) && calls == Registers(ss)
      invariant TasksServicesBefore(sj, tasks, lookup) == ss + TasksServicesBefore(sj, tasks[i..], lookup)
    {
      var task := tasks[i];
      TasksSnoc(sj, tasks, i, lookup);
      TasksBeforeStep(sj, tasks, i, lookup, ss);
      var host := HostById(sj.followers, task.followerId);
      if host.Ok? && task.state == "TASK_RUNNING" {
        var tname := CleanName(task.name);
        if task.ports != "" {
          var ports := YankPorts(task.ports);
          if ports.None? {
            TasksStaysNone(sj, tasks, i + 1, lookup);
            return calls, false;
          }
          var more := RegisterPorts(host.value, tname, ports.value, lookup);
          RegistersSnoc(ss, PortServices(host.value, tname, ports.value, lookup));
          ss := ss + PortServices(host.value, tname, ports.value, lookup);
          calls := calls + more;
        } else {
          assert ss + [] == ss;
        }
      } else {
        assert ss + [] == ss;
      }
      i := i + 1;
    }
    assert tasks[..i] == tasks;
    assert tasks[i..] == [];
    assert ss + [] == ss;
    return calls, true;
  }

  lemma TasksSnoc(sj: StateJSON, tasks: seq<Task>, i: nat, lookup: string -> Option<string>)
    requires i < |tasks| && TasksServices(sj, tasks[..i], lookup).Some?
    ensures TasksServices(sj, tasks[..i + 1], lookup) ==
              match TaskServices(sj, tasks[i], lookup)
              case None => None
              case Some(more) => Some(TasksServices(sj, tasks[..i], lookup).value + more)
  {
    assert tasks[..i + 1][..i] == tasks[..i];
  }

  lemma FrameworksSnoc(sj: StateJSON, fws: seq<Framework>, i: nat, lookup: string -> Option<string>)
    requires i < |fws| && FrameworksServices(sj, fws[..i], lookup).Some?
    ensures FrameworksServices(sj, fws[..i + 1], lookup) ==
              match TasksServices(sj, fws[i].tasks, lookup)
              case None => None
              case Some(more) => Some(FrameworksServices(sj, fws[..i], lookup).value + more)
  {
    assert fws[..i + 1][..i] == fws[..i];
  }

  lemma {:induction false} TasksStaysNone(sj: StateJSON, tasks: seq<Task>, i: nat, lookup: string -> Option<string>)
    requires i <= |tasks| && TasksServices(sj, tasks[..i], lookup).None?
    ensures TasksServices(sj, tasks, lookup).None?
    decreases |tasks| - i
  {
    if i < |tasks| {
      assert tasks[..i + 1][..i] == tasks[..i];
      TasksStaysNone(sj, tasks, i + 1, lookup);
    } else {
      assert tasks[..i] == tasks;
    }
  }

  lemma {:induction false} FrameworksStaysNone(sj: StateJSON, fws: seq<Framework>, i: nat, lookup: string -> Option<string>)
    requires i <= |fws| && FrameworksServices(sj, fws[..i], lookup).None?
    ensures FrameworksServices(sj, fws, lookup).None?
    decreases |fws| - i
  {
    if i < |fws| {
      assert fws[..i + 1][..i] == fws[..i];
      FrameworksStaysNone(sj, fws, i + 1, lookup);
    } else {
      assert fws[..i] == fws;
    }
  }

  /** parseState: the calls it makes, and whether it finishes. It does not
      when yankPorts panics; the calls made so far are those of every task
      before the failing one, in this framework and the earlier ones. */
  method ParseState(sj: StateJSON, lookup: string -> Option<string>) returns (calls: seq<PollCall>, completed: bool)
    ensures completed <==> StateCalls(sj, lookup).Some?
    ensures completed ==> calls == StateCalls(sj, lookup).value
    ensures !completed ==> Deregister !in calls
    ensures calls == Registers(FrameworksServicesBefore(sj, sj.frameworks, lookup)) + if completed then [Deregister] else []
  {
    calls := [];
    ghost var ss: seq<Service> := [];
    var fws := sj.frameworks;
    var i := 0;
    while i < |fws|
      invariant 0 <= i <= |fws|
      invariant FrameworksServices(sj, fws[..i], lookup) == Some(ss) && calls == Registers(ss)
      invariant FrameworksServicesBefore(sj, fws, lookup) == ss + FrameworksServicesBefore(sj, fws[i..], lookup)
    {
      FrameworksSnoc(sj, fws, i, lookup);
      FrameworksBeforeStep(sj, fws, i, lookup, ss);
      var more, done := RegisterTasks(sj, fws[i].tasks, lookup);
      if !done {
        FrameworksStaysNone(sj, fws, i + 1, lookup);
        RegistersSnoc(ss, TasksServicesBefore(sj, fws[i].tasks, lookup));
        calls := calls + more;
        RegistersAreRegisters(ss + TasksServicesBefore(sj, fws[i].tasks, lookup));
        return calls, false;
      }
      RegistersSnoc(ss, TasksServices(sj, fws[i].tasks, lookup).value);
      ss := ss + TasksServices(sj, fws[i].tasks, lookup).value;
      calls := calls + more;
      i := i + 1;
    }
    assert fws[..i] == fws;
    assert fws[i..] == [];
    assert ss + [] == ss;
    calls := calls + [Deregister];
    return calls, true;
  }

  lemma RegistersAreRegisters(ss: seq<Service>)
    ensures Deregister !in Registers(ss)
  {
  }

  /** parseState deregisters exactly once, after every register call. */
  lemma DeregisterLast(sj: StateJSON, lookup: string -> Option<string>)
    requires StateCalls(sj, lookup).Some?
    ensures var calls := StateCalls(sj, lookup).value;
            && |calls| >= 1 && calls[|calls| - 1] == Deregister
            && forall k | 0 <= k < |calls| - 1 :: calls[k].Register?
  {
  }

  lemma NoColonInCleanName(name: string)
    ensures ':' !in CleanName(name)
  {
  }

  lemma NoColonInNumber(n: int)
    ensures ':' !in IntToString(n)
  {
    if n < 0 {
      assert IntToString(n) == "-" + NatToString(-n);
    }
  }

  /** A service ID is "<host>:<name>:<port>", and reads back as its parts:
      the cleaned name has no colon, so a host without one is recovered. */
  lemma ServiceIdParts(host: string, tname: string, port: int, lookup: string -> Option<string>, name: string)
    requires ':' !in host && tname == CleanName(name) && MinInt64 <= port <= MaxInt64
    ensures var s := PortService(host, tname, port, lookup);
            && Split(s.id, ':') == [host, s.name, IntToString(s.port)]
            && Atoi(Split(s.id, ':')[2]) == s.port
  {
    var p := IntToString(port);
    var id := PortService(host, tname, port, lookup).id;
    NoColonInCleanName(name);
    NoColonInNumber(port);
    assert id == host + [':'] + (tname + [':'] + p);
    SplitThree(host, tname, p, ':');
    AtoiIntToString(port);
  }

  // ------------------------------------------------------------------ Refresh

  /** What Refresh does with the outcome of loadState: a failed load is
      returned; a document with an empty leader gives "Empty master";
      otherwise the document is parsed and no error is returned. */
  method RefreshLoaded(loaded: Result<StateJSON>, lookup: string -> Option<string>)
    returns (err: Option<string>, calls: seq<PollCall>, completed: bool)
    ensures loaded.Err? ==> err == Some(loaded.error) && calls == [] && completed
    ensures loaded.Ok? && loaded.value.leader == "" ==> err == Some("Empty master") && calls == [] && completed
    ensures loaded.Ok? && loaded.value.leader != "" ==>
              err == None && (completed <==> StateCalls(loaded.value, lookup).Some?) &&
              (completed ==> calls == StateCalls(loaded.value, lookup).value)
  {
    if loaded.Err? {
      return Some(loaded.error), [], true;
    }
    if loaded.value.leader == "" {
      return Some("Empty master"), [], true;
    }
    calls, completed := ParseState(loaded.value, lookup);
    err := None;
  }

  /** Refresh, from getLeader's (ip, port), as written: over loadState as
      written, so a leader field without `@` is reported as "Empty master". */
  method Refresh(ip: string, port: string, fetch: (string, string) -> StateJSON, lookup: string -> Option<string>)
    returns (err: Option<string>, calls: seq<PollCall>, completed: bool)
    ensures LoadState(ip, port, fetch).0.Err? ==>
              err == Some(LoadState(ip, port, fetch).0.error) && calls == [] && completed
    ensures LoadState(ip, port, fetch).0.Ok? && LoadState(ip, port, fetch).0.value.leader == "" ==>
              err == Some("Empty master") && calls == [] && completed
    ensures LoadState(ip, port, fetch).0.Ok? && LoadState(ip, port, fetch).0.value.leader != "" ==>
              err == None && (completed <==> StateCalls(LoadState(ip, port, fetch).0.value, lookup).Some?) &&
              (completed ==> calls == StateCalls(LoadState(ip, port, fetch).0.value, lookup).value)
    ensures ip != "" && '@' !in fetch(ip, port).leader ==> err == Some("Empty master") && calls == []
  {
    var (sj, _) := LoadState(ip, port, fetch);
    err, calls, completed := RefreshLoaded(sj, lookup);
  }

  /** Refresh over the intended loadState: a leader field without `@` is
      reported as CantConnect, and every other outcome is the same as
      written. */
  method RefreshIntended(ip: string, port: string, fetch: (string, string) -> StateJSON, lookup: string -> Option<string>)
    returns (err: Option<string>, calls: seq<PollCall>, completed: bool)
    ensures ip == "" ==> err == Some(LoadState(ip, port, fetch).0.error) && calls == [] && completed
    ensures ip != "" && '@' !in fetch(ip, port).leader ==> err == Some(CantConnect) && calls == [] && completed
    ensures LoadStateIntended(ip, port, fetch).0.Ok? && LoadStateIntended(ip, port, fetch).0.value.leader == "" ==>
              err == Some("Empty master") && calls == [] && completed
    ensures LoadStateIntended(ip, port, fetch).0.Ok? && LoadStateIntended(ip, port, fetch).0.value.leader != "" ==>
              err == None && (completed <==> StateCalls(LoadState(ip, port, fetch).0.value, lookup).Some?) &&
              (completed ==> calls == StateCalls(LoadState(ip, port, fetch).0.value, lookup).value)
  {
    var (sj, _) := LoadStateIntended(ip, port, fetch);
    err, calls, completed := RefreshLoaded(sj, lookup);
  }
}
