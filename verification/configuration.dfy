/** config/flags.go and config/config.go: the `user[:password]` flag value
    and the default configuration. */
module Config {
  import opened GoStrings

  /** Username and Password after Set(value), given the Password before:
      with a colon, the text before the first colon and everything after it
      (colons included); without one, the whole value and the old Password. */
  function SetAuth(value: string, password: string): (r: (string, string))
    ensures ':' in value ==> value == r.0 + ":" + r.1 && ':' !in r.0
    ensures ':' !in value ==> r == (value, password)
  {
    if ':' in value then
      var i := IndexOf(value, ':');
      assert value == value[..i] + ":" + value[i + 1..];
      (value[..i], value[i + 1..])
    else (value, password)
  }

  /** String: the Username alone when there is no Password, otherwise
      Username:Password. */
  function AuthText(username: string, password: string): (s: string)
    ensures password == "" ==> s == username
    ensures password != "" ==> s == username + ":" + password
  {
    if password == "" then username else username + ":" + password
  }

  /** On a fresh value, the text given to Set is printed back, unless its
      first colon is its last character. */
  lemma SetThenString(value: string)
    requires ':' in value ==> IndexOf(value, ':') < |value| - 1
    ensures var r := SetAuth(value, ""); AuthText(r.0, r.1) == value
  {
  }

  /** "user:" is printed back as "user": the empty password is dropped. */
  lemma TrailingColonDropped(user: string)
    requires ':' !in user
    ensures var r := SetAuth(user + ":", ""); r == (user, "") && AuthText(r.0, r.1) == user
  {
    IndexOfAfterPrefix(user, ':', "");
    assert (user + ":")[..|user|] == user;
  }

  /** Without a colon the old Password survives and is printed after the new name. */
  lemma PasswordSurvives(value: string, password: string)
    requires ':' !in value && password != ""
    ensures var r := SetAuth(value, password); AuthText(r.0, r.1) == value + ":" + password
  {
  }

  /** Auth; its methods are those of AuthVar, the flag form of the same record. */
  class Auth {
    var enabled: bool
    var username: string
    var password: string

    constructor (enabled: bool)
      ensures this.enabled == enabled && username == "" && password == ""
    {
      this.enabled := enabled;
      username := "";
      password := "";
    }

    /** AuthVar.Set: always enables authentication; never fails. */
    method Set(value: string) returns (err: bool)
      modifies this
      ensures !err
      ensures enabled
      ensures (username, password) == SetAuth(value, old(password))
    {
      enabled := true;
      if ':' in value {
        var i := IndexOf(value, ':');
        username := value[..i];
        password := value[i + 1..];
      } else {
        username := value;
      }
      return false;
    }

    /** AuthVar.String */
    function String(): (s: string)
      reads this
      ensures password == "" ==> s == username
      ensures password != "" ==> s == username + ":" + password
    {
      AuthText(username, password)
    }
  }

  class SSL {
    var enabled: bool
    var verify: bool
    var cert: string
    var caCert: string

    constructor (enabled: bool, verify: bool)
      ensures this.enabled == enabled && this.verify == verify && cert == "" && caCert == ""
    {
      this.enabled := enabled;
      this.verify := verify;
      cert := "";
      caCert := "";
    }
  }

  /** time.Minute, in nanoseconds as time.Duration counts. */
  const Minute: int := 60 * 1_000_000_000

  class Configuration {
    var refresh: int
    var registry: string
    var registryAuth: Auth
    var registrySSL: SSL
    var registryToken: string
    var zk: string

    constructor (auth: Auth, ssl: SSL)
      ensures refresh == Minute && registry == "" && registryToken == "" && zk == ""
      ensures registryAuth == auth && registrySSL == ssl
    {
      refresh := Minute;
      registry := "";
      registryAuth := auth;
      registrySSL := ssl;
      registryToken := "";
      zk := "";
    }
  }

  /** DefaultConfig: a one-minute refresh, no registry, token or ZooKeeper
      address, authentication off, SSL off but verifying; the Auth and SSL
      records are new on every call. */
  method DefaultConfig() returns (c: Configuration)
    ensures fresh(c) && fresh(c.registryAuth) && fresh(c.registrySSL)
    ensures c.refresh == Minute && c.registry == "" && c.registryToken == "" && c.zk == ""
    ensures !c.registryAuth.enabled && c.registryAuth.username == "" && c.registryAuth.password == ""
    ensures !c.registrySSL.enabled && c.registrySSL.verify
    ensures c.registrySSL.cert == "" && c.registrySSL.caCert == ""
  {
    var auth := new Auth(false);
    var ssl := new SSL(false, true);
    c := new Configuration(auth, ssl);
  }

  /** A flag value set once on a fresh record prints back as given, unless
      its first colon is its last character. */
  method SetThenPrint(value: string) returns (s: string)
    requires ':' in value ==> IndexOf(value, ':') < |value| - 1
    ensures s == value
  {
    var a := new Auth(false);
    var _ := a.Set(value);
    s := a.String();
    SetThenString(value);
  }

  /** Two calls share no record, so changing one configuration's Auth or
      SSL leaves the other's alone. */
  method DefaultConfigsApart() returns (a: Configuration, b: Configuration)
    ensures a != b && a.registryAuth != b.registryAuth && a.registrySSL != b.registrySSL
  {
    a := DefaultConfig();
    b := DefaultConfig();
  }
}
