/** mesos/state.go: follower lookup on a state document, and the health check
    a task asks for through its labels, with `{host}`/`{port}` substitution. */
module MesosState {
  import opened Wrappers
  import opened GoStrings
  import opened MesosTypes

  /** The values `{host}` and `{port}` stand for. The source passes them to
      varReplace through a package-level variable; here they are a parameter. */
  datatype CheckVar = CheckVar(host: string, port: string)

  /** registry.Check */
  datatype Check = Check(script: string, ttl: string, http: string, interval: string)

  /** StateJSON.GetFollowerById: the host name of the first follower with
      the id, or the error "Follower not found: <id>". */
  method GetFollowerById(sj: StateJSON, id: string) returns (r: Result<string>)
    ensures r.Ok? <==> exists k | 0 <= k < |sj.followers| :: sj.followers[k].id == id
    ensures r.Ok? ==> exists k | 0 <= k < |sj.followers| ::
              && sj.followers[k].id == id && sj.followers[k].hostname == r.value
              && forall j | 0 <= j < k :: sj.followers[j].id != id
    ensures r.Err? ==> r.error == "Follower not found: " + id
  {
    var i := 0;
    while i < |sj.followers|
      invariant 0 <= i <= |sj.followers|
      invariant forall j | 0 <= j < i :: sj.followers[j].id != id
    {
      if sj.followers[i].id == id {
        return Ok(sj.followers[i].hostname);
      }
      i := i + 1;
    }
    return Err("Follower not found: " + id);
  }

  /** varReplace: the replacement for one brace group. */
  function VarReplace(cv: CheckVar, group: string): string
  {
    if group == "{port}" then cv.port
    else if group == "{host}" then cv.host
    else group
  }

  /** interpolate: every match of `{[^}]*}` (a `{` up to the next `}`),
      found left to right, is replaced by VarReplace; the scan resumes after
      the group, so replaced text is never scanned again. Read from the left:
      a `{` with no `}` anywhere after it leaves the rest as it is, since no
      later `{` can have one either. */
  function Interpolate(cv: CheckVar, s: string): string
    decreases |s|
  {
    if s == [] then []
    else if s[0] == '{' then
      var close := IndexOf(s, '}');
      if close == |s| then s
      else VarReplace(cv, s[..close + 1]) + Interpolate(cv, s[close + 1..])
    else [s[0]] + Interpolate(cv, s[1..])
  }

  /** No `{` in `s` is followed, later in `s`, by a `}`: no brace group. */
  predicate NoGroup(s: string)
  {
    forall i, j | 0 <= i < j < |s| :: s[i] == '{' ==> s[j] != '}'
  }

  /** A scan of `s` for brace groups ends outside any group: every `{` it
      meets is closed by a `}` within `s`. */
  predicate Closed(s: string)
    decreases |s|
  {
    if s == [] then true
    else if s[0] == '{' then
      var close := IndexOf(s, '}');
      close < |s| && Closed(s[close + 1..])
    else Closed(s[1..])
  }

  /** A string without a brace group is returned unchanged. */
  lemma {:induction false} InterpolateNoGroup(cv: CheckVar, s: string)
    requires NoGroup(s)
    ensures Interpolate(cv, s) == s
  {
    if s != [] {
      if s[0] == '{' {
        assert forall j | 0 < j < |s| :: s[j] != '}';
        assert IndexOf(s, '}') == |s|;
      } else {
        assert NoGroup(s[1..]) by {
          forall i, j | 0 <= i < j < |s| - 1 && s[1..][i] == '{'
            ensures s[1..][j] != '}'
          {
            assert s[i + 1] == '{';
          }
        }
        InterpolateNoGroup(cv, s[1..]);
      }
    }
  }

  /** Without a `{`, nothing is replaced and the scan ends outside any group. */
  lemma {:induction false} InterpolateNoOpen(cv: CheckVar, s: string)
    requires '{' !in s
    ensures Interpolate(cv, s) == s && Closed(s)
  {
    if s != [] {
      assert s[0] != '{';
      assert '{' !in s[1..];
      InterpolateNoOpen(cv, s[1..]);
    }
  }

  lemma IndexOfAppend(a: string, b: string, c: char)
    requires c in a
    ensures IndexOf(a + b, c) == IndexOf(a, c)
  {
    var k := IndexOf(a, c);
    assert (a + b)[k] == c;
    assert forall j | 0 <= j < k :: (a + b)[j] == a[j];
  }

  /** A scan that starts on a group closed within `a` replaces that group. */
  lemma GroupFirst(cv: CheckVar, a: string, b: string, close: nat)
    requires a != [] && a[0] == '{' && close == IndexOf(a, '}') && close < |a|
    ensures Interpolate(cv, a + b)
         == VarReplace(cv, a[..close + 1]) + Interpolate(cv, a[close + 1..] + b)
  {
    assert (a + b)[0] == a[0];
    assert '}' in a by { assert a[close] == '}'; }
    IndexOfAppend(a, b, '}');
    SliceOfConcat(a, b, close + 1);
  }

  /** The first group of a closed string that starts with `{`. */
  lemma ClosedGroup(cv: CheckVar, a: string) returns (close: nat)
    requires Closed(a) && a != [] && a[0] == '{'
    ensures close == IndexOf(a, '}') && close < |a| && Closed(a[close + 1..])
    ensures Interpolate(cv, a) == VarReplace(cv, a[..close + 1]) + Interpolate(cv, a[close + 1..])
  {
    close := IndexOf(a, '}');
  }

  /** A scan that starts on any other character keeps it. */
  lemma PlainFirst(cv: CheckVar, a: string, b: string)
    requires a != [] && a[0] != '{'
    ensures Interpolate(cv, a + b) == [a[0]] + Interpolate(cv, a[1..] + b)
  {
    var s := a + b;
    assert s[0] == a[0];
    assert s[1..] == a[1..] + b;
  }

  /** Interpolation works piece by piece: a prefix that ends outside any
      brace group is interpolated on its own. */
  lemma {:induction false} InterpolateAppend(cv: CheckVar, a: string, b: string)
    requires Closed(a)
    ensures Interpolate(cv, a + b) == Interpolate(cv, a) + Interpolate(cv, b)
    decreases |a|, 1
  {
    if a == [] {
      assert a + b == b;
    } else if a[0] == '{' {
      AppendAfterGroup(cv, a, b);
    } else {
      AppendAfterPlain(cv, a, b);
    }
  }

  lemma {:induction false} AppendAfterGroup(cv: CheckVar, a: string, b: string)
    requires Closed(a) && a != [] && a[0] == '{'
    ensures Interpolate(cv, a + b) == Interpolate(cv, a) + Interpolate(cv, b)
    decreases |a|, 0
  {
    var close := ClosedGroup(cv, a);
    GroupFirst(cv, a, b, close);
    InterpolateAppend(cv, a[close + 1..], b);
    var g := VarReplace(cv, a[..close + 1]);
    var ra, rb := Interpolate(cv, a[close + 1..]), Interpolate(cv, b);
    ConcatAssoc(g, ra, rb);
  }

  lemma {:induction false} AppendAfterPlain(cv: CheckVar, a: string, b: string)
    requires Closed(a) && a != [] && a[0] != '{'
    ensures Interpolate(cv, a + b) == Interpolate(cv, a) + Interpolate(cv, b)
    decreases |a|, 0
  {
    PlainFirst(cv, a, b);
    InterpolateAppend(cv, a[1..], b);
    var ra, rb := Interpolate(cv, a[1..]), Interpolate(cv, b);
    ConcatAssoc([a[0]], ra, rb);
  }

  /** One brace group on its own is replaced by its value, and the value is
      not scanned again. */
  lemma InterpolateGroup(cv: CheckVar, inner: string)
    requires '}' !in inner
    ensures Interpolate(cv, "{" + inner + "}") == VarReplace(cv, "{" + inner + "}")
    ensures Closed("{" + inner + "}")
  {
    var g := "{" + inner + "}";
    assert g[0] == '{';
    assert '}' !in "{" + inner;
    IndexOfAfterPrefix("{" + inner, '}', "");
    assert "{" + inner + [ '}' ] + "" == g;
    assert g[..|g|] == g;
    assert g[|g|..] == "";
  }

  /** A group is the whole text from a `{` to the next `}`, so a `{` inside
      it hides a placeholder: "{x{port}" is one unknown group and is kept. */
  lemma NestedOpenKept(cv: CheckVar, inner: string)
    requires '}' !in inner && '{' in inner
    ensures Interpolate(cv, "{" + inner + "}") == "{" + inner + "}"
  {
    InterpolateGroup(cv, inner);
    var g := "{" + inner + "}";
    assert g[1..|g| - 1] == inner;
    assert '{' !in "{port}"[1..5] && '{' !in "{host}"[1..5];
  }

  /** A template with two groups between plain text: each group is replaced
      on its own, and the plain text is kept. */
  lemma InterpolateTemplate(cv: CheckVar, before: string, g1: string, middle: string, g2: string, after: string)
    requires '{' !in before && '{' !in middle && '{' !in after
    requires '}' !in g1 && '}' !in g2
    ensures Interpolate(cv, before + ("{" + g1 + "}" + (middle + ("{" + g2 + "}" + after))))
         == before + (VarReplace(cv, "{" + g1 + "}") + (middle + (VarReplace(cv, "{" + g2 + "}") + after)))
  {
    var group1, group2 := "{" + g1 + "}", "{" + g2 + "}";
    InterpolateGroup(cv, g1);
    InterpolateGroup(cv, g2);
    InterpolateNoOpen(cv, before);
    InterpolateNoOpen(cv, middle);
    InterpolateNoOpen(cv, after);
    InterpolateAppend(cv, group2, after);
    InterpolateAppend(cv, middle, group2 + after);
    InterpolateAppend(cv, group1, middle + (group2 + after));
    InterpolateAppend(cv, before, group1 + (middle + (group2 + after)));
  }

  lemma HealthUrlLiteral(template: string)
    requires template == "http://{host}:{port}/health"
    ensures template == "http://" + ("{" + "host" + "}" + (":" + ("{" + "port" + "}" + "/health")))
  {
  }

  /** `{host}` becomes the host and `{port}` the port, whatever they
      contain: a health-check URL template. */
  lemma InterpolateHealthUrl(cv: CheckVar, template: string)
    requires template == "http://{host}:{port}/health"
    ensures Interpolate(cv, template) == "http://" + (cv.host + (":" + (cv.port + "/health")))
  {
    HealthUrlLiteral(template);
    assert '{' !in "http://" && '{' !in ":" && '{' !in "/health";
    assert '}' !in "host" && '}' !in "port";
    assert "{" + "host" + "}" == "{host}" && "{" + "port" + "}" == "{port}";
    InterpolateTemplate(cv, "http://", "host", ":", "port", "/health");
  }

  /** The value of the last label whose key, lower-cased, is `key`. */
  function LastLabel(labels: seq<Label>, key: string): Option<string>
  {
    if labels == [] then None
    else if ToLower(labels[|labels| - 1].key) == key then Some(labels[|labels| - 1].value)
    else LastLabel(labels[..|labels| - 1], key)
  }

  /** A check field after the label scan: the last matching label's value,
      interpolated when `interpolated`, or the default's value. */
  function FieldAfter(labels: seq<Label>, key: string, dflt: string, cv: CheckVar, interpolated: bool): string
  {
    match LastLabel(labels, key)
    case None => dflt
    case Some(v) => if interpolated then Interpolate(cv, v) else v
  }

  /** Task.GetCheck: start from the default check; each label whose key is,
      case-insensitively, check_http, check_script or check_ttl sets that one
      field to its interpolated value, and check_interval sets the interval
      verbatim; a later label with the same key wins. */
  method GetCheck(task: Task, cv: CheckVar, defaultCheck: Check) returns (c: Check)
    ensures c.http == FieldAfter(task.labels, "check_http", defaultCheck.http, cv, true)
    ensures c.script == FieldAfter(task.labels, "check_script", defaultCheck.script, cv, true)
    ensures c.ttl == FieldAfter(task.labels, "check_ttl", defaultCheck.ttl, cv, true)
    ensures c.interval == FieldAfter(task.labels, "check_interval", defaultCheck.interval, cv, false)
  {
    c := defaultCheck;
    var i := 0;
    while i < |task.labels|
      invariant 0 <= i <= |task.labels|
      invariant c.http == FieldAfter(task.labels[..i], "check_http", defaultCheck.http, cv, true)
      invariant c.script == FieldAfter(task.labels[..i], "check_script", defaultCheck.script, cv, true)
      invariant c.ttl == FieldAfter(task.labels[..i], "check_ttl", defaultCheck.ttl, cv, true)
      invariant c.interval == FieldAfter(task.labels[..i], "check_interval", defaultCheck.interval, cv, false)
    {
      var l := task.labels[i];
      var k := ToLower(l.key);
      assert task.labels[..i + 1][..i] == task.labels[..i];
      if k == "check_http" {
        c := c.(http := Interpolate(cv, l.value));
      } else if k == "check_script" {
        c := c.(script := Interpolate(cv, l.value));
      } else if k == "check_ttl" {
        c := c.(ttl := Interpolate(cv, l.value));
      } else if k == "check_interval" {
        c := c.(interval := l.value);
      }
      i := i + 1;
    }
    assert task.labels[..i] == task.labels;
  }

  /** Without a label for a key, the field keeps the default's value. */
  lemma {:induction false} NoLabelKeepsDefault(labels: seq<Label>, key: string)
    requires forall k | 0 <= k < |labels| :: ToLower(labels[k].key) != key
    ensures LastLabel(labels, key) == None
  {
    if labels != [] {
      NoLabelKeepsDefault(labels[..|labels| - 1], key);
    }
  }
}
