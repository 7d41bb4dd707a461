/** Sub-query text as tokens: what the planner prints for a selection, and
    that a parser reads back exactly the selection that was printed. */
module Printing {
  import opened Basics
  import opened GraphQl

  /** Printed tokens; whitespace separates them and carries no meaning. */
  datatype Tok =
    | Word(w: Name)
    | Colon
    | Args(args: seq<Arg>)
    | Dir(dir: Directive)
    | On(cond: Name)
    | Open
    | Close

  function RenderDirs(ds: seq<Directive>): seq<Tok> {
    if ds == [] then [] else [Dir(ds[0])] + RenderDirs(ds[1..])
  }

  function RenderHead(f: Field): seq<Tok> {
    (if f.alias.Some? then [Word(f.alias.value), Colon] else []) + [Word(f.name)]
    + (if f.args == [] then [] else [Args(f.args)]) + RenderDirs(f.dirs)
  }

  function RenderField(f: Field): seq<Tok>
    decreases DepthF(f), 0
  {
    RenderHead(f) + (if f.sels == [] then [] else [Open] + RenderSels(f.sels) + [Close])
  }

  function RenderSel(x: Sel): seq<Tok>
    decreases Depth(x), 1
  {
    match x
    case F(f) => RenderField(f)
    case Frag(cond, dirs, sub) => [On(cond)] + RenderDirs(dirs) + [Open] + RenderSels(sub) + [Close]
  }

  function RenderSels(ss: seq<Sel>): seq<Tok>
    decreases DepthOf(ss), 2, |ss|
  {
    if ss == [] then [] else RenderSel(ss[0]) + RenderSels(ss[1..])
  }

  function RenderFields(fs: seq<Field>): seq<Tok> {
    if fs == [] then [] else RenderField(fs[0]) + RenderFields(fs[1..])
  }

  lemma {:induction false} RenderAppend(a: seq<Sel>, b: seq<Sel>)
    ensures RenderSels(a + b) == RenderSels(a) + RenderSels(b)
  {
    if a == [] {
      assert a + b == b;
    } else {
      assert (a + b)[1..] == a[1..] + b;
      RenderAppend(a[1..], b);
    }
  }

  lemma {:induction false} RenderFieldsAppend(a: seq<Field>, b: seq<Field>)
    ensures RenderFields(a + b) == RenderFields(a) + RenderFields(b)
  {
    if a == [] {
      assert a + b == b;
    } else {
      assert (a + b)[1..] == a[1..] + b;
      RenderFieldsAppend(a[1..], b);
    }
  }

  // ----- reading tokens back

  function ParseDirs(ts: seq<Tok>): (r: (seq<Directive>, seq<Tok>))
    ensures |r.1| <= |ts|
  {
    if ts == [] || !ts[0].Dir? then ([], ts)
    else
      var (ds, rest) := ParseDirs(ts[1..]);
      ([ts[0].dir] + ds, rest)
  }

  /** A braced selection set, when one follows. */
  function ParseBody(ts: seq<Tok>): (r: Option<(seq<Sel>, seq<Tok>)>)
    ensures r.Some? ==> |r.value.1| <= |ts|
    decreases |ts|, 0
  {
    if ts == [] || ts[0] != Open then Some(([], ts))
    else
      var r := ParseSels(ts[1..]);
      if r.Some? && r.value.1 != [] && r.value.1[0] == Close then Some((r.value.0, r.value.1[1..])) else None
  }

  function ParseTail(alias: Option<Name>, name: Name, ts: seq<Tok>): (r: Option<(Sel, seq<Tok>)>)
    ensures r.Some? ==> |r.value.1| <= |ts|
    decreases |ts|, 1
  {
    var (args, afterArgs) := if ts != [] && ts[0].Args? then (ts[0].args, ts[1..]) else ([], ts);
    var (dirs, afterDirs) := ParseDirs(afterArgs);
    var body := ParseBody(afterDirs);
    if body.Some? then Some((F(Field(alias, name, args, dirs, "", body.value.0)), body.value.1)) else None
  }

  function ParseSel(ts: seq<Tok>): (r: Option<(Sel, seq<Tok>)>)
    requires ts != []
    ensures r.Some? ==> |r.value.1| < |ts|
    decreases |ts|, 2
  {
    match ts[0]
    case Word(w) =>
      if |ts| > 2 && ts[1] == Colon && ts[2].Word? then ParseTail(Some(w), ts[2].w, ts[3..])
      else ParseTail(None, w, ts[1..])
    case On(cond) =>
      var (dirs, rest) := ParseDirs(ts[1..]);
      if rest == [] || rest[0] != Open then None
      else
        var body := ParseBody(rest);
        if body.Some? then Some((Frag(cond, dirs, body.value.0), body.value.1)) else None
    case _ => None
  }

  /** Selections up to a closing brace or the end. */
  function ParseSels(ts: seq<Tok>): (r: Option<(seq<Sel>, seq<Tok>)>)
    ensures r.Some? ==> |r.value.1| <= |ts|
    decreases |ts|, 3
  {
    if ts == [] || ts[0] == Close then Some(([], ts))
    else
      var x := ParseSel(ts);
      if x.None? then None
      else
        var xs := ParseSels(x.value.1);
        if xs.None? then None else Some(([x.value.0] + xs.value.0, xs.value.1))
  }

  /** A selection as text shows it: without the types its sets are on. */
  function Erase(ss: seq<Sel>): seq<Sel>
    decreases DepthOf(ss), 2, |ss|
  {
    if ss == [] then [] else [EraseSel(ss[0])] + Erase(ss[1..])
  }

  function EraseSel(x: Sel): Sel
    decreases Depth(x), 1
  {
    match x
    case F(f) => F(EraseField(f))
    case Frag(cond, dirs, sub) => Frag(cond, dirs, Erase(sub))
  }

  function EraseField(f: Field): Field
    decreases DepthF(f), 0
  {
    f.(ty := "", sels := Erase(f.sels))
  }

  // ----- the round trip

  /** What may follow a selection in a selection set. */
  predicate Follows(ts: seq<Tok>) {
    ts == [] || ts[0].Word? || ts[0].On? || ts[0].Close?
  }

  lemma {:induction false} DirsTrip(ds: seq<Directive>, rest: seq<Tok>)
    requires rest == [] || !rest[0].Dir?
    ensures ParseDirs(RenderDirs(ds) + rest) == (ds, rest)
  {
    if ds == [] {
      assert RenderDirs(ds) + rest == rest;
    } else {
      DirsTrip(ds[1..], rest);
      assert (RenderDirs(ds) + rest)[1..] == RenderDirs(ds[1..]) + rest;
      assert [ds[0]] + ds[1..] == ds;
    }
  }

  function Braced(ss: seq<Sel>): seq<Tok> {
    [Open] + RenderSels(ss) + [Close]
  }

  lemma {:induction false} BodyTrip(ss: seq<Sel>, rest: seq<Tok>)
    ensures ParseBody(Braced(ss) + rest) == Some((Erase(ss), rest))
    decreases DepthOf(ss), 4
  {
    var ts := Braced(ss) + rest;
    assert ts[1..] == RenderSels(ss) + ([Close] + rest);
    SelsTrip(ss, [Close] + rest);
    assert ([Close] + rest)[1..] == rest;
  }

  /** What follows a field's name. */
  function Tail(f: Field): seq<Tok> {
    (if f.args == [] then [] else [Args(f.args)]) + RenderDirs(f.dirs) + (if f.sels == [] then [] else Braced(f.sels))
  }

  lemma {:induction false} TailTrip(f: Field, rest: seq<Tok>)
    requires Follows(rest)
    ensures ParseTail(f.alias, f.name, Tail(f) + rest) == Some((F(EraseField(f)), rest))
    ensures Tail(f) + rest == [] || (Tail(f) + rest)[0] != Colon
    decreases DepthF(f), 0
  {
    var body := (if f.sels == [] then [] else Braced(f.sels)) + rest;
    var args := if f.args == [] then [] else [Args(f.args)];
    TailParts(f, rest);
    NotArgs(f.dirs, body);
    DirsTrip(f.dirs, body);
    ArgsTrip(f.args, RenderDirs(f.dirs) + body);
    if f.sels == [] {
      assert body == rest;
    } else {
      BodyTrip(f.sels, rest);
    }
  }

  lemma TailParts(f: Field, rest: seq<Tok>)
    ensures Tail(f) + rest == (if f.args == [] then [] else [Args(f.args)])
              + (RenderDirs(f.dirs) + ((if f.sels == [] then [] else Braced(f.sels)) + rest))
  {
  }

  lemma ArgsTrip(args: seq<Arg>, rest: seq<Tok>)
    requires rest == [] || !rest[0].Args?
    ensures var ts := (if args == [] then [] else [Args(args)]) + rest;
            (if ts != [] && ts[0].Args? then (ts[0].args, ts[1..]) else ([], ts)) == (args, rest)
  {
    if args == [] {
      assert [] + rest == rest;
    } else {
      assert ([Args(args)] + rest)[1..] == rest;
    }
  }

  lemma NotArgs(ds: seq<Directive>, rest: seq<Tok>)
    requires rest == [] || !rest[0].Args?
    ensures RenderDirs(ds) + rest == [] || !(RenderDirs(ds) + rest)[0].Args?
  {
  }

  lemma FieldTokens(f: Field, rest: seq<Tok>)
    ensures f.alias.None? ==> RenderField(f) + rest == [Word(f.name)] + (Tail(f) + rest)
    ensures f.alias.Some? ==> RenderField(f) + rest == [Word(f.alias.value), Colon, Word(f.name)] + (Tail(f) + rest)
  {
  }

  lemma {:induction false} FieldTrip(f: Field, rest: seq<Tok>)
    requires Follows(rest)
    ensures ParseSel(RenderField(f) + rest) == Some((F(EraseField(f)), rest))
    decreases DepthF(f), 1
  {
    TailTrip(f, rest);
    FieldTokens(f, rest);
    var tail := Tail(f) + rest;
    if f.alias.Some? {
      AliasTrip(f.alias.value, f.name, tail);
    } else {
      NameTrip(f.name, tail);
    }
  }

  lemma AliasTrip(alias: Name, name: Name, tail: seq<Tok>)
    ensures ParseSel([Word(alias), Colon, Word(name)] + tail) == ParseTail(Some(alias), name, tail)
  {
    assert ([Word(alias), Colon, Word(name)] + tail)[3..] == tail;
  }

  lemma NameTrip(name: Name, tail: seq<Tok>)
    requires tail == [] || tail[0] != Colon
    ensures ParseSel([Word(name)] + tail) == ParseTail(None, name, tail)
  {
    assert ([Word(name)] + tail)[1..] == tail;
  }

  lemma {:induction false} SelTrip(x: Sel, rest: seq<Tok>)
    requires Follows(rest)
    ensures RenderSel(x) != [] && (RenderSel(x)[0].Word? || RenderSel(x)[0].On?)
    ensures ParseSel(RenderSel(x) + rest) == Some((EraseSel(x), rest))
    decreases Depth(x), 2
  {
    match x
    case F(f) => FieldTrip(f, rest);
    case Frag(cond, dirs, sub) =>
      assert Depth(x) == 1 + DepthOf(sub);
      var ts := RenderSel(x) + rest;
      assert ts[1..] == RenderDirs(dirs) + (Braced(sub) + rest);
      DirsTrip(dirs, Braced(sub) + rest);
      BodyTrip(sub, rest);
  }

  /** Printing loses nothing: any selection set is read back from its text. */
  lemma {:induction false} SelsTrip(ss: seq<Sel>, rest: seq<Tok>)
    requires rest == [] || rest[0] == Close
    ensures ParseSels(RenderSels(ss) + rest) == Some((Erase(ss), rest))
    ensures Follows(RenderSels(ss) + rest)
    decreases DepthOf(ss), 3, |ss|
  {
    if ss == [] {
      assert RenderSels(ss) + rest == rest;
    } else {
      SelsTrip(ss[1..], rest);
      SelTrip(ss[0], RenderSels(ss[1..]) + rest);
      assert RenderSels(ss) + rest == RenderSel(ss[0]) + (RenderSels(ss[1..]) + rest);
    }
  }
}
