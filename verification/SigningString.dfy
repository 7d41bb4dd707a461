/** The string a client signs (section 2.3 of draft-cavage-http-signatures)
    and that it determines everything it was built from. */
module SigningString {
  import opened Basics
  import opened SignatureHeader
  import opened Splitting

  const TARGET := "(request-target)"

  /** A request; a header value is `None` when it is not legal text. */
  datatype Request = Request(verb: string, target: string, headers: seq<(string, Option<string>)>)

  /** All values of one header in order, trimmed; `None` when one is no text. */
  function Values(hs: seq<(string, Option<string>)>, name: string): Option<seq<string>> {
    if hs == [] then Some([])
    else
      var n := |hs| - 1;
      var rest := Values(hs[..n], name);
      if hs[n].0 != name then rest
      else if rest.Some? && hs[n].1.Some? then Some(rest.value + [Trim(hs[n].1.value)]) else None
  }

  function Join(parts: seq<string>, sep: string): string {
    if parts == [] then "" else if |parts| == 1 then parts[0] else parts[0] + (sep + Join(parts[1..], sep))
  }

  function Line(r: Request, name: string): Option<string> {
    if name == TARGET then Some(ToLower(r.verb) + [' '] + r.target)
    else
      var vs := Values(r.headers, name);
      if vs.None? || vs.value == [] then None else Some(name + [':'] + ([' '] + Join(vs.value, ", ")))
  }

  function Lines(r: Request, names: seq<string>): Option<seq<string>> {
    if names == [] then Some([])
    else
      var n := |names| - 1;
      var rest, line := Lines(r, names[..n]), Line(r, names[n]);
      if rest.Some? && line.Some? then Some(rest.value + [line.value]) else None
  }

  function Signed(r: Request, names: seq<string>): Option<string> {
    var ls := Lines(r, names);
    if ls.None? then None else Some(Join(ls.value, "\n"))
  }

  lemma {:induction false} LinesMissing(r: Request, names: seq<string>, i: nat)
    requires i <= |names| && Lines(r, names[..i]).None?
    ensures Lines(r, names).None?
    decreases |names|
  {
    if i < |names| {
      assert names[..|names| - 1][..i] == names[..i];
      LinesMissing(r, names[..|names| - 1], i);
    } else {
      assert names[..i] == names;
    }
  }

  method HeaderValues(hs: seq<(string, Option<string>)>, name: string) returns (vs: Option<seq<string>>)
    ensures vs == Values(hs, name)
  {
    var found: seq<string> := [];
    for i := 0 to |hs|
      invariant Values(hs[..i], name) == Some(found)
    {
      assert hs[..i + 1][..i] == hs[..i];
      if hs[i].0 == name {
        if hs[i].1.None? {
          ValuesMissing(hs, name, i + 1);
          return None;
        }
        found := found + [Trim(hs[i].1.value)];
      }
    }
    assert hs[..|hs|] == hs;
    vs := Some(found);
  }

  lemma {:induction false} ValuesMissing(hs: seq<(string, Option<string>)>, name: string, i: nat)
    requires i <= |hs| && Values(hs[..i], name).None?
    ensures Values(hs, name).None?
    decreases |hs|
  {
    if i < |hs| {
      assert hs[..|hs| - 1][..i] == hs[..i];
      ValuesMissing(hs[..|hs| - 1], name, i);
    } else {
      assert hs[..i] == hs;
    }
  }

  /** Builds the signing string line by line; none when a named header is
      missing or is no text. */
  method BuildSigningString(r: Request, names: seq<string>) returns (s: Option<string>)
    ensures s == Signed(r, names)
  {
    var lines: seq<string> := [];
    for i := 0 to |names|
      invariant Lines(r, names[..i]) == Some(lines)
    {
      assert names[..i + 1][..i] == names[..i];
      var name := names[i];
      if name == TARGET {
        lines := lines + [ToLower(r.verb) + [' '] + r.target];
      } else {
        var values := HeaderValues(r.headers, name);
        if values.None? || values.value == [] {
          LinesMissing(r, names, i + 1);
          return None;
        }
        lines := lines + [name + [':'] + ([' '] + Join(values.value, ", "))];
      }
    }
    assert names[..|names|] == names;
    s := Some(Join(lines, "\n"));
  }

  // ----- the string determines its parts

  /** No colon, space or newline: methods and header names. */
  predicate Plain(s: string) {
    ':' !in s && ' ' !in s && '\n' !in s
  }

  predicate OneLine(r: Request) {
    && Plain(r.verb) && '\n' !in r.target
    && forall i :: 0 <= i < |r.headers| && r.headers[i].1.Some? ==> '\n' !in r.headers[i].1.value
  }

  predicate Names(names: seq<string>) {
    forall i :: 0 <= i < |names| ==> names[i] == TARGET || Plain(names[i])
  }

  lemma {:induction false} JoinExact(a: seq<string>, b: seq<string>)
    requires (forall i :: 0 <= i < |a| ==> a[i] != "" && '\n' !in a[i]) && (forall i :: 0 <= i < |b| ==> b[i] != "" && '\n' !in b[i])
    requires Join(a, "\n") == Join(b, "\n")
    ensures a == b
    decreases |a|
  {
    JoinShape(a);
    JoinShape(b);
    if |a| > 1 && |b| > 1 {
      assert Join(a, "\n") == a[0] + ['\n'] + Join(a[1..], "\n") && Join(b, "\n") == b[0] + ['\n'] + Join(b[1..], "\n");
      SplitFirst(a[0], Join(a[1..], "\n"), b[0], Join(b[1..], "\n"), '\n');
      JoinExact(a[1..], b[1..]);
      assert a == [a[0]] + a[1..] && b == [b[0]] + b[1..];
    } else if |a| == 1 && |b| == 1 {
      assert a == [a[0]] && b == [b[0]];
    }
  }

  lemma {:induction false} JoinShape(a: seq<string>)
    requires forall i :: 0 <= i < |a| ==> a[i] != "" && '\n' !in a[i]
    ensures a == [] <==> Join(a, "\n") == ""
    ensures '\n' in Join(a, "\n") <==> |a| > 1
  {
    if |a| > 1 {
      assert Join(a, "\n") == a[0] + ("\n" + Join(a[1..], "\n"));
      assert Join(a, "\n")[|a[0]|] == '\n';
    }
  }

  lemma {:induction false} TrimLine(s: string)
    requires '\n' !in s
    ensures '\n' !in TrimStart(s) && '\n' !in TrimEnd(s)
  {
    if s != "" {
      TrimLine(s[1..]);
      TrimLine(s[..|s| - 1]);
    }
  }

  lemma {:induction false} ValuesLine(hs: seq<(string, Option<string>)>, name: string)
    requires forall i :: 0 <= i < |hs| && hs[i].1.Some? ==> '\n' !in hs[i].1.value
    requires Values(hs, name).Some?
    ensures forall i :: 0 <= i < |Values(hs, name).value| ==> '\n' !in Values(hs, name).value[i]
  {
    if hs != [] {
      var n := |hs| - 1;
      ValuesLine(hs[..n], name);
      if hs[n].0 == name {
        TrimLine(hs[n].1.value);
        TrimLine(TrimStart(hs[n].1.value));
      }
    }
  }

  lemma {:induction false} JoinLine(vs: seq<string>)
    requires forall i :: 0 <= i < |vs| ==> '\n' !in vs[i]
    ensures '\n' !in Join(vs, ", ")
  {
    if |vs| > 1 {
      JoinLine(vs[1..]);
    }
  }

  lemma {:induction false} LineShape(r: Request, name: string)
    requires OneLine(r) && (name == TARGET || Plain(name)) && Line(r, name).Some?
    ensures Line(r, name).value != "" && '\n' !in Line(r, name).value
  {
    if name == TARGET {
      assert forall i :: 0 <= i < |r.verb| ==> ToLower(r.verb)[i] != '\n' by {
        assert forall i :: 0 <= i < |r.verb| ==> r.verb[i] in r.verb;
      }
      assert Line(r, name).value[|r.verb|] == ' ';
    } else {
      ValuesLine(r.headers, name);
      JoinLine(Values(r.headers, name).value);
      assert Line(r, name).value[|name|] == ':';
    }
  }

  lemma LowerPlain(s: string)
    requires Plain(s)
    ensures Plain(ToLower(s))
  {
    assert forall i :: 0 <= i < |s| ==> s[i] in s;
  }

  /** One line determines its name and what it shows. */
  lemma {:induction false} LineExact(a: Request, m: string, b: Request, n: string)
    requires OneLine(a) && OneLine(b) && (m == TARGET || Plain(m)) && (n == TARGET || Plain(n))
    requires Line(a, m).Some? && Line(a, m) == Line(b, n)
    ensures m == n
    ensures m == TARGET ==> ToLower(a.verb) == ToLower(b.verb) && a.target == b.target
    ensures m != TARGET ==> Join(Values(a.headers, m).value, ", ") == Join(Values(b.headers, n).value, ", ")
  {
    LowerPlain(a.verb);
    LowerPlain(b.verb);
    var line := Line(a, m).value;
    if m == TARGET && n == TARGET {
      SplitFirst(ToLower(a.verb), a.target, ToLower(b.verb), b.target, ' ');
    } else if m == TARGET {
      KindsDiffer(ToLower(a.verb), a.target, n, [' '] + Join(Values(b.headers, n).value, ", "));
    } else if n == TARGET {
      KindsDiffer(ToLower(b.verb), b.target, m, [' '] + Join(Values(a.headers, m).value, ", "));
    } else {
      var x, y := [' '] + Join(Values(a.headers, m).value, ", "), [' '] + Join(Values(b.headers, n).value, ", ");
      SplitFirst(m, x, n, y, ':');
      assert x[1..] == y[1..];
    }
  }

  /** A request line meets its space before any colon, a header its colon
      before any space. */
  lemma {:induction false} KindsDiffer(verb: string, target: string, name: string, value: string)
    requires Plain(verb) && Plain(name)
    ensures verb + [' '] + target != name + [':'] + value
  {
    var s, t := verb + [' '] + target, name + [':'] + value;
    assert s[|verb|] == ' ' && t[|name|] == ':';
    assert forall i :: 0 <= i < |verb| ==> s[i] == verb[i];
    assert forall i :: 0 <= i < |name| ==> t[i] == name[i];
  }

  lemma {:induction false} LinesAt(r: Request, names: seq<string>, i: nat)
    requires Lines(r, names).Some? && i < |names|
    ensures |Lines(r, names).value| == |names|
    ensures Line(r, names[i]) == Some(Lines(r, names).value[i])
    decreases |names|
  {
    var n := |names| - 1;
    if n > 0 {
      LinesAt(r, names[..n], if i < n then i else 0);
    } else {
      assert names[..n] == [];
    }
  }

  lemma {:induction false} LinesShape(r: Request, names: seq<string>)
    requires OneLine(r) && Names(names) && Lines(r, names).Some?
    ensures |Lines(r, names).value| == |names|
    ensures forall i :: 0 <= i < |names| ==> Lines(r, names).value[i] != "" && '\n' !in Lines(r, names).value[i]
  {
    if names != [] {
      LinesAt(r, names, 0);
    }
    forall i: nat | i < |names|
      ensures |Lines(r, names).value| == |names| && Lines(r, names).value[i] != "" && '\n' !in Lines(r, names).value[i]
    {
      LinesAt(r, names, i);
      LineShape(r, names[i]);
    }
  }

  /** Both requests carry header `n`, with the same trimmed, joined value. */
  predicate SameValue(a: Request, b: Request, n: string) {
    && Values(a.headers, n).Some? && Values(b.headers, n).Some?
    && Values(a.headers, n).value != [] && Values(b.headers, n).value != []
    && Join(Values(a.headers, n).value, ", ") == Join(Values(b.headers, n).value, ", ")
  }

  /** The same signing string means the same signed names and, for each of
      them, the same method (up to case) and target or header value. */
  lemma {:induction false} SigningExact(a: Request, ms: seq<string>, b: Request, ns: seq<string>)
    requires OneLine(a) && OneLine(b) && Names(ms) && Names(ns)
    requires Signed(a, ms).Some? && Signed(a, ms) == Signed(b, ns)
    ensures ms == ns
    ensures TARGET in ms ==> ToLower(a.verb) == ToLower(b.verb) && a.target == b.target
    ensures forall n :: n in ms && n != TARGET ==> SameValue(a, b, n)
  {
    LinesShape(a, ms);
    LinesShape(b, ns);
    JoinExact(Lines(a, ms).value, Lines(b, ns).value);
    forall i: nat | i < |ms|
      ensures ms[i] == ns[i]
      ensures ms[i] == TARGET ==> ToLower(a.verb) == ToLower(b.verb) && a.target == b.target
      ensures ms[i] != TARGET ==> SameValue(a, b, ms[i])
    {
      LinesAt(a, ms, i);
      LinesAt(b, ns, i);
      LineExact(a, ms[i], b, ns[i]);
    }
  }

  // ----- what the string says, line by line and value by value

  /** The request line: method in lower case, a space, the target as sent. */
  lemma {:induction false} TargetLine(r: Request)
    ensures Signed(r, [TARGET]) == Some(ToLower(r.verb) + " " + r.target)
  {
    assert [TARGET][..0] == [] && Lines(r, []) == Some([]);
    assert [ToLower(r.verb) + [' '] + r.target][0] == ToLower(r.verb) + " " + r.target;
  }

  lemma {:induction false} OneSigned(r: Request, name: string)
    ensures Signed(r, [name]) == Line(r, name)
  {
    assert [name][..0] == [] && Lines(r, []) == Some([]);
    if Line(r, name).Some? {
      assert Lines(r, [name]) == Some([] + [Line(r, name).value]);
    }
  }

  lemma {:induction false} JoinSnoc(parts: seq<string>, last: string, sep: string)
    requires parts != []
    ensures Join(parts + [last], sep) == Join(parts, sep) + sep + last
  {
    var all := parts + [last];
    assert all[1..] == parts[1..] + [last] && all[0] == parts[0];
    if |parts| > 1 {
      JoinSnoc(parts[1..], last, sep);
      assert Join(all, sep) == parts[0] + (sep + (Join(parts[1..], sep) + sep + last));
      assert Join(parts, sep) + sep + last == parts[0] + (sep + Join(parts[1..], sep)) + sep + last;
    } else {
      assert parts[1..] == [] && all[1..] == [last] && parts == [parts[0]];
    }
  }

  /** One more name is one more line, and fails when its own line does. */
  lemma {:induction false} LineAdded(r: Request, names: seq<string>, name: string)
    requires names != []
    ensures Signed(r, names + [name]) ==
            if Signed(r, names).Some? && Signed(r, [name]).Some?
            then Some(Signed(r, names).value + "\n" + Signed(r, [name]).value) else None
  {
    OneSigned(r, name);
    assert (names + [name])[..|names|] == names;
    if Lines(r, names).Some? && Line(r, name).Some? {
      LinesAt(r, names, 0);
      JoinSnoc(Lines(r, names).value, Line(r, name).value, "\n");
    }
  }

  /** Values of other headers change nothing; one more value of the signed
      header is appended, trimmed, after a comma and a space; the first makes
      the line; one that is no text makes the header unsignable. */
  lemma {:induction false} ValueAdded(r: Request, name: string, other: string, v: Option<string>)
    requires name != TARGET
    ensures var now := r.(headers := r.headers + [(other, v)]);
            Signed(now, [name]) ==
            if other != name then Signed(r, [name])
            else if v.None? then None
            else if Signed(r, [name]).Some? then Some(Signed(r, [name]).value + ", " + Trim(v.value))
            else if forall i :: 0 <= i < |r.headers| ==> r.headers[i].0 != name then Some(name + ": " + Trim(v.value))
            else None
  {
    var now := r.(headers := r.headers + [(other, v)]);
    OneSigned(r, name);
    OneSigned(now, name);
    assert now.headers[..|r.headers|] == r.headers;
    NoValues(r.headers, name);
    var vs := Values(r.headers, name);
    if other == name && v.Some? && vs.Some? {
      if vs.value != [] {
        JoinSnoc(vs.value, Trim(v.value), ", ");
        assert name + [':'] + ([' '] + (Join(vs.value, ", ") + ", " + Trim(v.value))) ==
               name + [':'] + ([' '] + Join(vs.value, ", ")) + ", " + Trim(v.value);
      } else {
        assert Values(now.headers, name) == Some([] + [Trim(v.value)]);
        assert name + [':'] + ([' '] + Trim(v.value)) == name + ": " + Trim(v.value);
      }
    }
  }

  lemma {:induction false} NoValues(hs: seq<(string, Option<string>)>, name: string)
    ensures Values(hs, name) == Some([]) <==> forall i :: 0 <= i < |hs| ==> hs[i].0 != name
  {
    if hs != [] {
      NoValues(hs[..|hs| - 1], name);
    }
  }
}
