/** The shapes of the Mesos master's state document and of the ZooKeeper
    leader record, as the mesos package reads them. The field names follow the
    revision of mesos.go and state.go (`Followers`, `FollowerId`), of which
    types.go's `Slaves`/`SlaveId` is the older naming. */
module MesosTypes {

  type uint32 = x: nat | x < 0x1_0000_0000

  datatype Label = Label(key: string, value: string)

  /** One task of a framework; `ports` is the raw `resources.ports` text,
      such as "[31000-31002, 31005-31005]". */
  datatype Task = Task(
    id: string,
    name: string,
    followerId: string,
    state: string,
    ports: string,
    labels: seq<Label>)

  datatype Framework = Framework(name: string, tasks: seq<Task>)

  /** A follower (agent); `pid` has the form `slave(1)@host:port`. */
  datatype Follower = Follower(id: string, hostname: string, pid: string)

  datatype StateJSON = StateJSON(frameworks: seq<Framework>, followers: seq<Follower>, leader: string)

  /** The zero value of StateJSON: what a Go function returns when it
      recovers from a panic before assigning its results. */
  const EmptyState := StateJSON([], [], "")

  /** mesosproto.MasterInfo, reduced to the fields the detectors read:
      a host name (empty when not set), a packed IPv4 address and a port. */
  datatype MasterInfo = MasterInfo(hostname: string, ip: uint32, port: uint32)
}
