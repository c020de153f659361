/** mesos/regex_list.go: a list of regular expressions, compiled into one
    alternation, used to match task names. The regular-expression engine is
    a parameter: whether a pattern compiles, and whether a compiled pattern
    matches a text. */
module MesosRegexList {
  import opened Wrappers
  import opened GoStrings

  datatype Engine = Engine(compiles: string -> bool, matches: (string, string) -> bool)

  /** A compiled *regexp.Regexp, known by the pattern it was compiled from. */
  datatype Regex = Regex(pattern: string)

  /** The single pattern a list compiles to: its elements joined by `|`. */
  function Alternation(l: seq<string>): string
  {
    Join(l, '|')
  }

  /** regexp.Compile: the compiled pattern, or nil on error. */
  function CompilePattern(pattern: string, engine: Engine): (r: Option<Regex>)
    ensures r.Some? <==> engine.compiles(pattern)
    ensures r.Some? ==> r.value.pattern == pattern
  {
    if engine.compiles(pattern) then Some(Regex(pattern)) else None
  }

  /** The Regex field after Compile as written: an empty list leaves it; a
      non-empty one overwrites it with the compile result, nil on error. */
  function Compiled(previous: Option<Regex>, l: seq<string>, engine: Engine): Option<Regex>
  {
    if |l| > 0 then CompilePattern(Alternation(l), engine) else previous
  }

  /** The Regex field after Compile as its comment describes it: a pattern
      that does not compile leaves the last value. */
  function CompiledKeepLast(previous: Option<Regex>, l: seq<string>, engine: Engine): Option<Regex>
  {
    if |l| > 0 && engine.compiles(Alternation(l)) then Some(Regex(Alternation(l))) else previous
  }

  /** As written, a bad pattern forgets a regex that was set, so matching
      falls back to the default; the comment means to keep it. */
  lemma CompileForgetsOnError(last: Regex, l: seq<string>, engine: Engine)
    requires |l| > 0 && !engine.compiles(Alternation(l))
    ensures Compiled(Some(last), l, engine) == None
    ensures CompiledKeepLast(Some(last), l, engine) == Some(last)
  {
  }

  /** With the last value kept, the regex only ever changes into the
      compiled alternation of the list; an empty list or a bad pattern
      changes nothing. */
  lemma KeepLastChanges(previous: Option<Regex>, l: seq<string>, engine: Engine)
    ensures CompiledKeepLast(previous, l, engine) == previous ||
              (|l| > 0 && CompiledKeepLast(previous, l, engine) == CompilePattern(Alternation(l), engine))
    ensures CompiledKeepLast(previous, l, engine) != previous ==> engine.compiles(Alternation(l))
  {
  }

  /** The two readings agree whenever nothing was compiled before, as in
      NewRegexList, and whenever the pattern compiles. */
  lemma CompileReadingsAgree(previous: Option<Regex>, l: seq<string>, engine: Engine)
    requires previous.None? || |l| == 0 || engine.compiles(Alternation(l))
    ensures Compiled(previous, l, engine) == CompiledKeepLast(previous, l, engine)
  {
  }

  /** Joining patterns free of `|` and splitting again gives them back: the
      alternation keeps every element. */
  lemma AlternationKeepsElements(l: seq<string>)
    requires |l| >= 1 && forall k | 0 <= k < |l| :: '|' !in l[k]
    ensures Split(Alternation(l), '|') == l
  {
    SplitJoin(l, '|');
  }

  class RegexList {
    var list: seq<string>
    var regex: Option<Regex>

    /** NewRegexList: the list is kept, and compiled when it is not empty. */
    constructor (l: seq<string>, engine: Engine)
      ensures list == l
      ensures regex == Compiled(None, l, engine)
      ensures l == [] ==> regex.None?
    {
      list := l;
      regex := None;
      new;
      Compile(l, engine);
    }

    /** Compile, as written. */
    method Compile(l: seq<string>, engine: Engine)
      modifies this
      ensures list == old(list)
      ensures regex == Compiled(old(regex), l, engine)
    {
      if |l| > 0 {
        var lstring := Join(l, '|');
        var re := CompilePattern(lstring, engine);
        regex := re;
      }
    }

    /** Compile, keeping the last value when the pattern does not compile,
        as its comment intends. */
    method CompileKeepLast(l: seq<string>, engine: Engine)
      modifies this
      ensures list == old(list)
      ensures regex == CompiledKeepLast(old(regex), l, engine)
    {
      if |l| > 0 {
        var lstring := Join(l, '|');
        var re := CompilePattern(lstring, engine);
        if re.Some? {
          regex := re;
        }
      }
    }

    /** MatchString: the regex's verdict, or `def` when there is no regex. */
    function MatchString(s: string, def: bool, engine: Engine): (b: bool)
      reads this
      ensures regex.None? ==> b == def
      ensures regex.Some? ==> b == engine.matches(regex.value.pattern, s)
    {
      if regex.Some? then engine.matches(regex.value.pattern, s) else def
    }
  }
}
