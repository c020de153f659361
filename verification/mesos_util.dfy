/** mesos/util.go: task-name normalisation, the parsing of Mesos process ids
    and leader strings, and the host/port conversions used when registering. */
module MesosUtil {
  import opened Wrappers
  import opened GoStrings

  /** The characters the class `[\w-.\.]` matches: ASCII letters and digits,
      `_`, `-` and `.` (inside a Go character class `-.` after `\w` is a
      literal `-` followed by a literal `.`). */
  predicate WordChar(c: char)
  {
    'a' <= c <= 'z' || 'A' <= c <= 'Z' || IsDigit(c) || c == '_' || c == '-' || c == '.'
  }

  /** A character that survives cleanName: a word character other than `_`. */
  predicate Kept(c: char)
  {
    WordChar(c) && c != '_'
  }

  predicate NotUnderscore(c: char)
  {
    c != '_'
  }

  /** A character cleanName can produce. */
  predicate CleanChar(c: char)
  {
    'a' <= c <= 'z' || IsDigit(c) || c == '-' || c == '.'
  }

  /** The characters of `s` that satisfy `p`, in their original order. */
  function Filter(s: string, p: char -> bool): (r: string)
    ensures |r| <= |s|
    ensures forall k | 0 <= k < |r| :: p(r[k])
    ensures forall c | c in r :: c in s && p(c)
  {
    if s == [] then [] else (if p(s[0]) then [s[0]] else []) + Filter(s[1..], p)
  }

  /** Filtering a text one character longer at the front. */
  lemma FilterCons(c: char, b: string, p: char -> bool)
    ensures Filter([c] + b, p) == (if p(c) then [c] else []) + Filter(b, p)
  {
    assert ([c] + b)[1..] == b;
  }

  /** cleanName: delete every match of `[^\w-.\.]`, then every `_`, then lower-case.
      (The regexp is a constant that compiles, so the error branch is dead.) */
  function CleanName(name: string): (r: string)
    ensures |r| <= |name|
    ensures forall k | 0 <= k < |r| :: CleanChar(r[k])
  {
    var words := Filter(name, WordChar);
    var noUnderscore := Filter(words, NotUnderscore);
    assert forall k | 0 <= k < |noUnderscore| :: Kept(noUnderscore[k]) by {
      forall k | 0 <= k < |noUnderscore| ensures Kept(noUnderscore[k]) {
        assert noUnderscore[k] in noUnderscore;
      }
    }
    ToLower(noUnderscore)
  }

  /** The same normalisation in one pass: keep each kept character, lower-cased, in order. */
  function CleanOnePass(name: string): string
  {
    if name == [] then [] else (if Kept(name[0]) then [LowerRune(name[0])] else []) + CleanOnePass(name[1..])
  }

  /** cleanName deletes exactly the `_` and the characters outside `[A-Za-z0-9_.-]`
      and lower-cases the others, keeping their order. */
  lemma {:induction false} CleanNameIsOnePass(name: string)
    ensures CleanName(name) == CleanOnePass(name)
  {
    if name != [] {
      var c, rest := name[0], name[1..];
      var kept := if Kept(c) then [c] else [];
      var tail := Filter(Filter(rest, WordChar), NotUnderscore);
      KeptHead(name);
      assert CleanName(name) == ToLower(kept + tail);
      ToLowerConcat(kept, tail);
      assert ToLower(kept) == if Kept(c) then [LowerRune(c)] else [];
      CleanNameIsOnePass(rest);
    }
  }

  /** The two deletions, one character at a time. */
  lemma KeptHead(name: string)
    requires name != []
    ensures Filter(Filter(name, WordChar), NotUnderscore) ==
              (if Kept(name[0]) then [name[0]] else []) + Filter(Filter(name[1..], WordChar), NotUnderscore)
  {
    var c, rest := name[0], name[1..];
    var words := Filter(rest, WordChar);
    if WordChar(c) {
      assert Filter(name, WordChar) == [c] + words;
      FilterCons(c, words, NotUnderscore);
    } else {
      assert Filter(name, WordChar) == [] + words == words;
      assert !Kept(c);
    }
  }

  /** A name made only of characters cleanName can produce is left as it is. */
  lemma {:induction false} CleanOnePassFixes(name: string)
    requires forall k | 0 <= k < |name| :: CleanChar(name[k])
    ensures CleanOnePass(name) == name
  {
    if name != [] {
      CleanOnePassFixes(name[1..]);
    }
  }

  /** cleanName is idempotent. */
  lemma CleanNameIdempotent(name: string)
    ensures CleanName(CleanName(name)) == CleanName(name)
  {
    var once := CleanName(name);
    CleanNameIsOnePass(once);
    CleanOnePassFixes(once);
  }

  /** parsePID("type@host:port"): the text after the first `@` of the part
      before the first `:` (up to a further `@`, if any), and the text between
      the first and the second `:`. None where the source's slice indexing
      panics: no `:`, or no `@` before the first `:`. */
  function ParsePID(pid: string): (r: Option<(string, string)>)
    ensures r.Some? <==> ':' in pid && '@' in pid[..IndexOf(pid, ':')]
    ensures r.Some? ==> '@' !in r.value.0 && ':' !in r.value.1
  {
    var byColon := Split(pid, ':');
    var byAt := Split(byColon[0], '@');
    if |byAt| < 2 || |byColon| < 2 then None else Some((byAt[1], byColon[1]))
  }

  /** A well-formed pid is taken apart into exactly the host and port it was built from. */
  lemma ParsePIDRoundTrip(kind: string, host: string, port: string)
    requires '@' !in kind && ':' !in kind
    requires '@' !in host && ':' !in host
    requires ':' !in port
    ensures ParsePID(kind + "@" + host + ":" + port) == Some((host, port))
  {
    var before := kind + ['@'] + host;
    assert kind + "@" + host + ":" + port == before + [':'] + port;
    assert ':' !in before;
    SplitAtFirst(before, ':', port);
    SplitNone(port, ':');
    SplitAtFirst(kind, '@', host);
    SplitNone(host, '@');
  }

  /** leaderIP("master@ip:port"): the text after the first `@`, up to the
      next `:` (or `@`). None where the source panics: no `@` at all. */
  function LeaderIP(leader: string): (r: Option<string>)
    ensures r.Some? <==> '@' in leader
    ensures r.Some? ==> ':' !in r.value
  {
    var byAt := Split(leader, '@');
    if |byAt| < 2 then None else Some(Split(byAt[1], ':')[0])
  }

  /** A leader string built from a name, an address and a port yields the address. */
  lemma LeaderIPRoundTrip(name: string, host: string, port: string)
    requires '@' !in name && '@' !in host && ':' !in host && '@' !in port
    ensures LeaderIP(name + "@" + host + ":" + port) == Some(host)
  {
    var rest := host + [':'] + port;
    assert name + "@" + host + ":" + port == name + ['@'] + rest;
    assert '@' !in rest;
    SplitAtFirst(name, '@', rest);
    SplitNone(rest, '@');
    SplitAtFirst(host, ':', port);
  }

  lemma LeaderLiteral(leader: string)
    requires leader == "master@124.123.123.121:5050"
    ensures leader == "master" + "@" + "124.123.123.121" + ":" + "5050"
  {
  }

  /** The example of the source's own test: the address of "master@124.123.123.121:5050". */
  lemma LeaderIPExample(leader: string)
    requires leader == "master@124.123.123.121:5050"
    ensures LeaderIP(leader) == Some("124.123.123.121")
  {
    LeaderLiteral(leader);
    assert '@' !in "master" && '@' !in "5050";
    assert '@' !in "124.123.123.121" && ':' !in "124.123.123.121";
    LeaderIPRoundTrip("master", "124.123.123.121", "5050");
  }

  /** toIP: the first address a DNS lookup gives for the host, or the host
      itself when the lookup fails. The resolver is a parameter. */
  function ToIP(host: string, lookup: string -> Option<string>): (ip: string)
    ensures lookup(host).None? ==> ip == host
    ensures lookup(host).Some? ==> ip == lookup(host).value
  {
    match lookup(host)
    case None => host
    case Some(addr) => addr
  }

  /** toPort: strconv.Atoi's value, the error only being logged. */
  function ToPort(p: string): int
  {
    Atoi(p)
  }

  /** toPort reads back every port number printed in decimal. */
  lemma ToPortOfDecimal(n: nat)
    requires n <= MaxInt64
    ensures ToPort(NatToString(n)) == n
  {
    AtoiIntToString(n);
  }
}
