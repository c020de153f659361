/** consul/config.go: the registry's `user[:password]` flag value. It
    follows the same rules as the configuration package's, stated once in
    module Config. */
module ConsulConfig {
  import opened GoStrings
  import Config

  /** authVar, over the fields of auth. */
  class AuthVar {
    var enabled: bool
    var username: string
    var password: string

    constructor ()
      ensures !enabled && username == "" && password == ""
    {
      enabled := false;
      username := "";
      password := "";
    }

    /** Set: always enables authentication and never fails; with a colon the
        value splits at its first one, without one only the username changes. */
    method Set(value: string) returns (err: bool)
      modifies this
      ensures !err
      ensures enabled
      ensures (username, password) == Config.SetAuth(value, old(password))
    {
      enabled := true;
      if ':' in value {
        var i := IndexOf(value, ':');
        username := value[..i];
        password := value[i + 1..];
      } else {
        username := value;
      }
      return false;
    }

    /** String: the username alone without a password, else username:password. */
    function String(): (s: string)
      reads this
      ensures password == "" ==> s == username
      ensures password != "" ==> s == username + ":" + password
    {
      Config.AuthText(username, password)
    }
  }

  /** Setting "user:" on a fresh value prints back "user". */
  method TrailingColonPrintsName(user: string) returns (s: string)
    requires ':' !in user
    ensures s == user
  {
    var a := new AuthVar();
    var _ := a.Set(user + ":");
    s := a.String();
    Config.TrailingColonDropped(user);
  }
}
