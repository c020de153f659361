/** mesos/privilege.go: admission of task names by a whitelist and a
    blacklist of regular expressions. */
module MesosPrivilege {
  import opened Wrappers
  import opened MesosRegexList

  class Privilege {
    const whiteList: RegexList
    const blackList: RegexList

    /** NewPrivilege: one regex list per argument. */
    constructor (w: seq<string>, b: seq<string>, engine: Engine)
      ensures fresh(whiteList) && fresh(blackList) && whiteList != blackList
      ensures whiteList.list == w && whiteList.regex == Compiled(None, w, engine)
      ensures blackList.list == b && blackList.regex == Compiled(None, b, engine)
    {
      whiteList := new RegexList(w, engine);
      blackList := new RegexList(b, engine);
    }

    /** Allowed: a name passes when the whitelist, if it has a regex,
        matches it, and the blacklist, if it has a regex, does not. */
    function Allowed(name: string, engine: Engine): (ok: bool)
      reads this, whiteList, blackList
      ensures ok <==>
                && (whiteList.regex.None? || engine.matches(whiteList.regex.value.pattern, name))
                && (blackList.regex.None? || !engine.matches(blackList.regex.value.pattern, name))
    {
      if !whiteList.MatchString(name, true, engine) then false
      else if blackList.MatchString(name, false, engine) then false
      else true
    }
  }

  /** With both lists empty every name is allowed, whatever the engine. */
  method EmptyListsAllowAll(name: string, engine: Engine) returns (ok: bool)
    ensures ok
  {
    var p := new Privilege([], [], engine);
    ok := p.Allowed(name, engine);
  }
}
