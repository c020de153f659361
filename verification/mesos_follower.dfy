/** mesos/follower.go: looking a follower's host name up by its id. */
module MesosFollower {
  import opened Wrappers
  import opened MesosTypes

  /** Followers.hostById: the host name of the first follower whose id is
      `id`, or the error "Follower not found: <id>" when none has it. The
      list itself is a value and is left as it is. */
  function HostById(fs: seq<Follower>, id: string): (r: Result<string>)
    ensures r.Ok? <==> exists k | 0 <= k < |fs| :: fs[k].id == id
    ensures r.Ok? ==> exists k | 0 <= k < |fs| ::
              && fs[k].id == id && fs[k].hostname == r.value
              && forall j | 0 <= j < k :: fs[j].id != id
    ensures r.Err? ==> r.error == "Follower not found: " + id
  {
    if fs == [] then Err("Follower not found: " + id)
    else if fs[0].id == id then Ok(fs[0].hostname)
    else
      var r := HostById(fs[1..], id);
      assert forall k | 0 <= k < |fs| - 1 :: fs[1..][k] == fs[k + 1];
      r
  }

  /** A found host name is the host name of a follower in the list. */
  lemma HostByIdIsListed(fs: seq<Follower>, id: string)
    requires HostById(fs, id).Ok?
    ensures exists k | 0 <= k < |fs| :: fs[k].hostname == HostById(fs, id).value
  {
  }
}
