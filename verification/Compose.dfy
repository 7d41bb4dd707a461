/** Composition: merging subgraph schemas into the ownership tables. The
    methods follow the composer's loops; the specification says outright
    which inputs compose and what the tables hold. */
module Compose {
  import opened Basics
  import opened Plan

  // ----- parsed subgraph schemas

  datatype Kind = ScalarKind | ObjectKind | InterfaceKind | UnionKind | EnumKind | InputKind

  datatype TypeRef = Named(name: Name) | ListOf(of: TypeRef) | NonNull(of: TypeRef)
  {
    function Inner(): Name {
      match this
      case Named(n) => n
      case ListOf(t) => t.Inner()
      case NonNull(t) => t.Inner()
    }
  }

  datatype ArgDef = ArgDef(name: Name, ty: TypeRef, default: Option<string>)

  /** What `field_signature` prints: arguments and return type. */
  datatype Signature = Signature(args: seq<ArgDef>, ty: TypeRef)

  /** `unsupported`: the field carries `@requires` or `@override`. */
  datatype FieldDef = FieldDef(name: Name, sig: Signature, external: bool, unsupported: bool)

  /** The first `@key`; `fields` is `None` when the argument is no string. */
  datatype KeyDirective = KeyDirective(fields: Option<string>, resolvable: bool)

  datatype TypeDef = TypeDef(kind: Kind, key: Option<KeyDirective>, external: bool, implements: seq<Name>,
                             members: seq<Name>, fields: seq<FieldDef>, rest: string)

  datatype NamedType = NamedType(name: Name, def: TypeDef)

  datatype SubSchema = SubSchema(query: Option<Name>, mutation: Option<Name>, subscription: Option<Name>,
                                 types: seq<NamedType>)

  function Lookup(types: seq<NamedType>, t: Name): Option<TypeDef> {
    if types == [] then None
    else if types[|types| - 1].name == t then Some(types[|types| - 1].def)
    else Lookup(types[..|types| - 1], t)
  }

  predicate DeclaresField(d: TypeDef, f: Name) {
    exists i :: 0 <= i < |d.fields| && d.fields[i].name == f
  }

  /** Type and field names are unique, as in any parsed schema. */
  ghost predicate UniqueNames(s: SubSchema) {
    && (forall i, j :: 0 <= i < j < |s.types| ==> s.types[i].name != s.types[j].name)
    && (forall i :: 0 <= i < |s.types| ==> UniqueFields(s.types[i].def.fields))
  }

  ghost predicate UniqueFields(fs: seq<FieldDef>) {
    forall a, b :: 0 <= a < b < |fs| ==> fs[a].name != fs[b].name
  }

  // ----- key field sets

  /** The characters that separate key field names. */
  predicate Separates(c: char) {
    c == ',' || c == ' ' || '\t' <= c <= '\r' || c == '\U{85}' || c == '\U{A0}' || c == '\U{1680}'
    || '\U{2000}' <= c <= '\U{200A}' || c == '\U{2028}' || c == '\U{2029}' || c == '\U{202F}'
    || c == '\U{205F}' || c == '\U{3000}'
  }

  /** The non-empty tokens of `s` between separators; `cur` is the token
      being read. */
  function Tokens(s: string, cur: string): seq<string> {
    if s == [] then (if cur == [] then [] else [cur])
    else if Separates(s[0]) then (if cur == [] then [] else [cur]) + Tokens(s[1..], [])
    else Tokens(s[1..], cur + [s[0]])
  }

  /** A token no flat field list may contain. */
  predicate Nested(token: string) {
    exists i :: 0 <= i < |token| && token[i] in ['{', '}', '(', ')', ':', '.']
  }

  /** The key under the flat-key rules, `None` when it breaks them. */
  function ParseKey(d: TypeDef, fields: string): Option<seq<Name>> {
    var ts := Tokens(fields, []);
    if ts != [] && forall i :: 0 <= i < |ts| ==> !Nested(ts[i]) && DeclaresField(d, ts[i]) then Some(ts) else None
  }

  /** A flat field list as it is usually written. */
  function Listed(ks: seq<Name>): string {
    if ks == [] then "" else if |ks| == 1 then ks[0] else ks[0] + ([' '] + Listed(ks[1..]))
  }

  predicate Flat(k: Name) {
    k != "" && !Nested(k) && forall i :: 0 <= i < |k| ==> !Separates(k[i])
  }

  lemma {:induction false} ReadToken(k: string, rest: string, cur: string)
    requires forall i :: 0 <= i < |k| ==> !Separates(k[i])
    ensures Tokens(k + rest, cur) == Tokens(rest, cur + k)
    decreases |k|
  {
    if k == "" {
      assert k + rest == rest && cur + k == cur;
    } else {
      assert (k + rest)[1..] == k[1..] + rest && (k + rest)[0] == k[0];
      ReadToken(k[1..], rest, cur + [k[0]]);
      assert cur + [k[0]] + k[1..] == cur + k;
    }
  }

  lemma {:induction false} AfterSpace(rest: string, cur: string)
    requires cur != ""
    ensures Tokens([' '] + rest, cur) == [cur] + Tokens(rest, "")
  {
    var s := [' '] + rest;
    assert s[0] == ' ' && s[1..] == rest;
  }

  lemma {:induction false} TokensListed(ks: seq<Name>)
    requires forall i :: 0 <= i < |ks| ==> Flat(ks[i])
    ensures Tokens(Listed(ks), "") == ks
    decreases |ks|
  {
    if |ks| == 1 {
      ReadToken(ks[0], "", "");
      assert ks[0] + "" == ks[0] && "" + ks[0] == ks[0] && ks == [ks[0]];
    } else if |ks| > 1 {
      var rest := Listed(ks[1..]);
      ReadToken(ks[0], [' '] + rest, "");
      assert "" + ks[0] == ks[0] && ks == [ks[0]] + ks[1..];
      AfterSpace(rest, ks[0]);
      TokensListed(ks[1..]);
    }
  }

  /** A list of declared field names is read back as that key. */
  lemma {:induction false} FlatKey(d: TypeDef, ks: seq<Name>)
    requires ks != [] && forall i :: 0 <= i < |ks| ==> Flat(ks[i]) && DeclaresField(d, ks[i])
    ensures ParseKey(d, Listed(ks)) == Some(ks)
  {
    TokensListed(ks);
  }

  predicate Separating(s: string) {
    forall i :: 0 <= i < |s| ==> Separates(s[i])
  }

  /** Tokens with the separators that follow them. */
  function Interleaved(ks: seq<Name>, seps: seq<string>): string
    requires |seps| == |ks|
  {
    if ks == [] then "" else ks[0] + (seps[0] + Interleaved(ks[1..], seps[1..]))
  }

  predicate Token(k: Name) {
    k != "" && forall i :: 0 <= i < |k| ==> !Separates(k[i])
  }

  /** `s` is the tokens `ks` with separators before, between and after. */
  ghost predicate Laid(s: string, ks: seq<Name>, lead: string, seps: seq<string>) {
    && |seps| == |ks|
    && s == lead + Interleaved(ks, seps)
    && Separating(lead)
    && (forall i :: 0 <= i < |ks| ==> Token(ks[i]) && Separating(seps[i]))
    && (forall i :: 0 <= i < |ks| - 1 ==> seps[i] != "")
  }

  lemma {:induction false} SkipSeparators(s: string, rest: string)
    requires Separating(s)
    ensures Tokens(s + rest, "") == Tokens(rest, "")
  {
    if s == "" {
      assert s + rest == rest;
    } else {
      assert (s + rest)[1..] == s[1..] + rest && (s + rest)[0] == s[0];
      SkipSeparators(s[1..], rest);
    }
  }

  lemma {:induction false} LaidRead(s: string, ks: seq<Name>, lead: string, seps: seq<string>)
    requires Laid(s, ks, lead, seps)
    ensures Tokens(s, "") == ks
    decreases |ks|
  {
    SkipSeparators(lead, Interleaved(ks, seps));
    if ks != [] {
      var tail := seps[0] + Interleaved(ks[1..], seps[1..]);
      ReadToken(ks[0], tail, "");
      assert "" + ks[0] == ks[0];
      assert Laid(tail, ks[1..], seps[0], seps[1..]);
      LaidRead(tail, ks[1..], seps[0], seps[1..]);
      if seps[0] == "" {
        assert ks[1..] == [] && tail == "";
        assert ks == [ks[0]];
      } else {
        assert tail[0] == seps[0][0];
        assert Tokens(tail, ks[0]) == [ks[0]] + Tokens(tail[1..], "") && Tokens(tail, "") == Tokens(tail[1..], "");
        assert ks == [ks[0]] + ks[1..];
      }
    }
  }

  /** The token being read ends at a separator or with the text. */
  lemma {:induction false} TokenEnd(s: string, cur: string) returns (k: string, tail: string)
    requires cur != ""
    ensures s == k + tail && (forall i :: 0 <= i < |k| ==> !Separates(k[i])) && (tail != "" ==> Separates(tail[0]))
    ensures Tokens(s, cur) == [cur + k] + Tokens(tail, "")
  {
    if s == "" || Separates(s[0]) {
      k, tail := "", s;
      assert cur + "" == cur;
    } else {
      k, tail := TokenEnd(s[1..], cur + [s[0]]);
      assert cur + [s[0]] + k == cur + ([s[0]] + k);
      k := [s[0]] + k;
    }
  }

  lemma {:induction false} ReadLaid(s: string) returns (lead: string, seps: seq<string>)
    ensures Laid(s, Tokens(s, ""), lead, seps)
    ensures s != "" && Separates(s[0]) ==> lead != ""
    decreases |s|
  {
    if s == "" {
      lead, seps := "", [];
    } else if Separates(s[0]) {
      var rest;
      rest, seps := ReadLaid(s[1..]);
      lead := [s[0]] + rest;
      LaidLonger(s, Tokens(s[1..], ""), rest, seps);
      assert Tokens(s, "") == Tokens(s[1..], "");
    } else {
      var k, tail := TokenEnd(s[1..], [s[0]]);
      HeadToken(s, k, tail);
      var rest, more := ReadLaid(tail);
      lead, seps := "", [rest] + more;
      LaidCons([s[0]] + k, Tokens(tail, ""), rest, more, tail);
    }
  }

  lemma {:induction false} HeadToken(s: string, k: string, tail: string)
    requires s != "" && !Separates(s[0]) && s[1..] == k + tail && Tokens(s[1..], [s[0]]) == [[s[0]] + k] + Tokens(tail, "")
    ensures s == [s[0]] + k + tail && Tokens(s, "") == [[s[0]] + k] + Tokens(tail, "")
  {
    assert "" + [s[0]] == [s[0]] && s == [s[0]] + s[1..];
  }

  lemma {:induction false} LaidLonger(s: string, ks: seq<Name>, lead: string, seps: seq<string>)
    requires s != "" && Separates(s[0]) && Laid(s[1..], ks, lead, seps)
    ensures Laid(s, ks, [s[0]] + lead, seps)
  {
    assert s == [s[0]] + s[1..];
    assert [s[0]] + (lead + Interleaved(ks, seps)) == [s[0]] + lead + Interleaved(ks, seps);
  }

  lemma {:induction false} LaidCons(k: Name, ks: seq<Name>, lead: string, seps: seq<string>, tail: string)
    requires Token(k) && Laid(tail, ks, lead, seps) && (tail != "" ==> lead != "")
    ensures Laid(k + tail, [k] + ks, "", [lead] + seps)
  {
    assert ([k] + ks)[1..] == ks && ([lead] + seps)[1..] == seps;
    assert k + tail == "" + (k + (lead + Interleaved(ks, seps)));
    if ks != [] {
      assert tail != "" by {
        assert ks[0] != "" && |Interleaved(ks, seps)| >= |ks[0]|;
      }
    }
  }

  /** The tokens of a text are exactly what stands between its separators. */
  lemma {:induction false} TokensExact(s: string, ks: seq<Name>)
    ensures Tokens(s, "") == ks <==> exists lead, seps :: Laid(s, ks, lead, seps)
  {
    if Tokens(s, "") == ks {
      var lead, seps := ReadLaid(s);
    }
    if lead, seps :| Laid(s, ks, lead, seps) {
      LaidRead(s, ks, lead, seps);
    }
  }

  /** Whether a definition's `@key` is acceptable, and the key it gives. */
  predicate KeyAccepted(d: TypeDef) {
    d.key.Some? && d.key.value.resolvable ==> d.key.value.fields.Some? && ParseKey(d, d.key.value.fields.value).Some?
  }

  function KeyOf(d: TypeDef): Option<seq<Name>> {
    if d.key.Some? && d.key.value.resolvable && d.key.value.fields.Some?
    then ParseKey(d, d.key.value.fields.value) else None
  }

  // ----- entities

  /** A definition of a type by subgraph `i`. */
  datatype Def = Def(i: nat, d: TypeDef)

  /** One field declaration of an entity. */
  datatype Decl = Decl(i: nat, def: FieldDef, external: bool)

  function DeclsOfDef(x: Def): seq<Decl> {
    seq(|x.d.fields|, k requires 0 <= k < |x.d.fields| =>
      Decl(x.i, x.d.fields[k], x.d.external || x.d.fields[k].external))
  }

  /** All field declarations, in the order the composer meets them. */
  function DeclsOf(defs: seq<Def>): seq<Decl> {
    if defs == [] then [] else DeclsOf(defs[..|defs| - 1]) + DeclsOfDef(defs[|defs| - 1])
  }

  /** The subgraphs among `ds` declaring `f` without `@external`. */
  function OwnersIn(ds: seq<Decl>, f: Name): seq<nat> {
    if ds == [] then []
    else
      var d := ds[|ds| - 1];
      OwnersIn(ds[..|ds| - 1], f) + (if d.def.name == f && !d.external then [d.i] else [])
  }

  ghost predicate Supported(ds: seq<Decl>) {
    && (forall a :: 0 <= a < |ds| ==> !ds[a].def.unsupported)
    && (forall a, b :: 0 <= a < b < |ds| && ds[a].def.name == ds[b].def.name ==> ds[a].def.sig == ds[b].def.sig)
  }

  function NamesIn(ds: seq<Decl>): set<Name> {
    set a | 0 <= a < |ds| :: ds[a].def.name
  }

  function KeysTable(defs: seq<Def>, n: nat): (ks: seq<Option<seq<Name>>>)
    ensures |ks| == n
  {
    seq(n, i requires 0 <= i < n => KeyAt(defs, i))
  }

  function KeyAt(defs: seq<Def>, i: nat): Option<seq<Name>> {
    if defs == [] then None
    else if defs[|defs| - 1].i == i && KeyOf(defs[|defs| - 1].d).Some? then KeyOf(defs[|defs| - 1].d)
    else KeyAt(defs[..|defs| - 1], i)
  }

  /** Subgraph `s` owns some field of the entity. */
  ghost predicate OwnsSome(ds: seq<Decl>, s: nat) {
    exists a :: 0 <= a < |ds| && ds[a].i == s && !ds[a].external
  }

  /** `p` can hand over the key fields owner `s` needs. */
  predicate Provides(p: TypeDef, key: Option<seq<Name>>) {
    key.Some? && forall k :: 0 <= k < |key.value| ==> DeclaresField(p, key.value[k])
  }

  /** The entity rules of composition. */
  ghost predicate EntityOk(defs: seq<Def>) {
    var ds := DeclsOf(defs);
    && (forall a :: 0 <= a < |defs| ==> KeyAccepted(defs[a].d))
    && Supported(ds)
    && (forall f :: f in NamesIn(ds) ==> OwnersIn(ds, f) != [])
    && (forall a, s: nat :: 0 <= a < |defs| && OwnsSome(ds, s) && s != defs[a].i ==> Provides(defs[a].d, KeyAt(defs, s)))
  }

  type OwnerTable = map<(Name, Name), seq<nat>>

  /** `now` is `was` with the owners of the fields `fs` of entity `t`. */
  ghost predicate WithOwners(now: OwnerTable, was: OwnerTable, t: Name, ds: seq<Decl>, fs: set<Name>) {
    && (forall u, f :: (u, f) in now <==> (u, f) in was || (u == t && f in fs))
    && (forall u, f :: (u, f) in now ==> now[(u, f)] == if u == t && f in fs then OwnersIn(ds, f) else was[(u, f)])
  }

  // ----- the composer's loops

  datatype MergedField = MergedField(sig: Signature, resolved: bool, owners: seq<nat>)

  /** What the merge table holds after the declarations `ds`. */
  ghost predicate Merges(fields: map<Name, MergedField>, names: seq<Name>, ds: seq<Decl>) {
    && fields.Keys == NamesIn(ds)
    && (forall f :: f in fields <==> f in names)
    && (forall f :: f in fields ==> MergesField(fields[f], ds, f))
  }

  ghost predicate MergesField(m: MergedField, ds: seq<Decl>, f: Name) {
    && m.owners == OwnersIn(ds, f)
    && (m.resolved <==> m.owners != [])
    && (forall a :: 0 <= a < |ds| && ds[a].def.name == f ==> ds[a].def.sig == m.sig)
  }

  lemma {:induction false} DeclsPrefix(defs: seq<Def>, a: nat)
    requires a <= |defs|
    ensures DeclsOf(defs[..a]) <= DeclsOf(defs)
    decreases |defs|
  {
    if a < |defs| {
      var n := |defs| - 1;
      DeclsPrefix(defs[..n], a);
      assert defs[..n][..a] == defs[..a];
    } else {
      assert defs[..a] == defs;
    }
  }

  lemma SupportedPrefix(ds: seq<Decl>, all: seq<Decl>)
    requires ds <= all && Supported(all)
    ensures Supported(ds)
  {
    assert forall a :: 0 <= a < |ds| ==> ds[a] == all[a];
  }

  lemma {:induction false} OwnersSnoc(ds: seq<Decl>, d: Decl, f: Name)
    ensures OwnersIn(ds + [d], f) == OwnersIn(ds, f) + (if d.def.name == f && !d.external then [d.i] else [])
  {
    assert (ds + [d])[..|ds|] == ds;
  }

  lemma {:induction false} NamesSnoc(ds: seq<Decl>, d: Decl)
    ensures NamesIn(ds + [d]) == NamesIn(ds) + {d.def.name}
  {
    var all := ds + [d];
    assert forall a :: 0 <= a < |ds| ==> all[a] == ds[a];
    forall g ensures g in NamesIn(all) <==> g in NamesIn(ds) || g == d.def.name {
      if g in NamesIn(ds) {
        var a :| 0 <= a < |ds| && ds[a].def.name == g;
        assert all[a].def.name == g;
      }
      if g == d.def.name {
        assert all[|ds|].def.name == g;
      }
    }
  }

  lemma {:induction false} SupportedSnoc(fields: map<Name, MergedField>, names: seq<Name>, ds: seq<Decl>, d: Decl)
    requires Merges(fields, names, ds) && Supported(ds)
    ensures Supported(ds + [d]) <==> !d.def.unsupported && (d.def.name in fields ==> fields[d.def.name].sig == d.def.sig)
  {
    var all := ds + [d];
    var f := d.def.name;
    assert forall a :: 0 <= a < |ds| ==> all[a] == ds[a];
    assert all[|ds|] == d;
    if f in fields {
      assert MergesField(fields[f], ds, f);
      var a :| 0 <= a < |ds| && ds[a].def.name == f;
      assert all[a].def.name == f;
    } else {
      assert forall a :: 0 <= a < |ds| && ds[a].def.name == f ==> f in NamesIn(ds);
    }
  }

  lemma {:induction false} MergesFieldSnoc(m: MergedField, ds: seq<Decl>, d: Decl, f: Name)
    requires MergesField(m, ds, f) && d.def.name != f
    ensures MergesField(m, ds + [d], f)
  {
    OwnersSnoc(ds, d, f);
  }

  /** Recording one more declaration keeps the merge table. */
  lemma {:induction false} MergeNext(fields: map<Name, MergedField>, names: seq<Name>, ds: seq<Decl>, d: Decl, m: MergedField)
    requires Merges(fields, names, ds)
    requires MergesField(m, ds + [d], d.def.name)
    ensures Merges(fields[d.def.name := m], if d.def.name in fields then names else names + [d.def.name], ds + [d])
  {
    NamesSnoc(ds, d);
    forall g | g in fields && g != d.def.name ensures MergesField(fields[g], ds + [d], g) {
      MergesFieldSnoc(fields[g], ds, d, g);
    }
  }

  /** The updated entry of the declared field. */
  lemma {:induction false} MergeEntry(fields: map<Name, MergedField>, names: seq<Name>, ds: seq<Decl>, d: Decl, m: MergedField, m': MergedField)
    requires Merges(fields, names, ds)
    requires m == if d.def.name in fields then fields[d.def.name] else MergedField(d.def.sig, false, [])
    requires m.sig == d.def.sig
    requires m' == if d.external then m else m.(owners := m.owners + [d.i], resolved := true)
    ensures MergesField(m', ds + [d], d.def.name)
  {
    OwnersSnoc(ds, d, d.def.name);
    if d.def.name in fields {
      assert MergesField(fields[d.def.name], ds, d.def.name);
    } else {
      FirstOwners(ds, d.def.name);
      assert forall a :: 0 <= a < |ds| ==> ds[a].def.name in NamesIn(ds);
    }
  }

  lemma {:induction false} FirstOwners(ds: seq<Decl>, f: Name)
    requires f !in NamesIn(ds)
    ensures OwnersIn(ds, f) == []
  {
    if ds != [] {
      var n := |ds| - 1;
      assert ds[n].def.name in NamesIn(ds);
      assert forall a :: 0 <= a < n ==> ds[..n][a] == ds[a];
      FirstOwners(ds[..n], f);
    }
  }

  lemma {:induction false} KeysSnoc(defs: seq<Def>, a: nat, n: nat)
    requires a < |defs| && defs[a].i < n
    ensures KeysTable(defs[..a + 1], n) ==
            if KeyOf(defs[a].d).Some? then KeysTable(defs[..a], n)[defs[a].i := KeyOf(defs[a].d)] else KeysTable(defs[..a], n)
  {
    assert defs[..a + 1][..a] == defs[..a];
  }

  /** Checks a `@key` field set token by token. */
  method ParseKeyFields(d: TypeDef, fields: string) returns (key: Option<seq<Name>>)
    ensures key == ParseKey(d, fields)
  {
    var ts := Tokens(fields, []);
    if ts == [] {
      return None;
    }
    for k := 0 to |ts|
      invariant forall j :: 0 <= j < k ==> !Nested(ts[j]) && DeclaresField(d, ts[j])
    {
      if Nested(ts[k]) || !DeclaresField(d, ts[k]) {
        return None;
      }
    }
    key := Some(ts);
  }

  lemma DeclNext(x: Def, ds: seq<Decl>, b: nat)
    requires b < |x.d.fields|
    ensures var all, d := DeclsOfDef(x), Decl(x.i, x.d.fields[b], x.d.external || x.d.fields[b].external);
            && all[b] == d
            && ds + all[..b] + [d] == ds + all[..b + 1]
            && ds + all[..b] + [d] <= ds + all
  {
    var all := DeclsOfDef(x);
    assert all[..b + 1] == all[..b] + [all[b]];
    assert ds + all == ds + all[..b + 1] + all[b + 1..];
  }

  /** Merges one definition's field declarations into the table. */
  method MergeDef(x: Def, fields0: map<Name, MergedField>, names0: seq<Name>, ghost ds: seq<Decl>)
    returns (ok: bool, fields: map<Name, MergedField>, names: seq<Name>)
    requires Supported(ds) && Merges(fields0, names0, ds)
    ensures ok <==> Supported(ds + DeclsOfDef(x))
    ensures ok ==> Merges(fields, names, ds + DeclsOfDef(x))
  {
    fields, names, ok := fields0, names0, true;
    ghost var met := ds;
    for b := 0 to |x.d.fields|
      invariant met == ds + DeclsOfDef(x)[..b]
      invariant Supported(met) && Merges(fields, names, met)
    {
      var fd := x.d.fields[b];
      var external := x.d.external || fd.external;
      ghost var d := Decl(x.i, fd, external);
      DeclNext(x, ds, b);
      SupportedSnoc(fields, names, met, d);
      if fd.unsupported || (fd.name in fields && fields[fd.name].sig != fd.sig) {
        ok := false;
        if Supported(ds + DeclsOfDef(x)) {
          SupportedPrefix(met + [d], ds + DeclsOfDef(x));
        }
        return;
      }
      var m := if fd.name in fields then fields[fd.name] else MergedField(fd.sig, false, []);
      var m' := if external then m else m.(owners := m.owners + [x.i], resolved := true);
      MergeEntry(fields, names, met, d, m, m');
      MergeNext(fields, names, met, d, m');
      names := if fd.name in fields then names else names + [fd.name];
      fields := fields[fd.name := m'];
      met := met + [d];
    }
    assert DeclsOfDef(x)[..|x.d.fields|] == DeclsOfDef(x);
  }

  /** The canonical key of one definition; fails when it breaks the rules. */
  method KeyFor(d: TypeDef) returns (ok: bool, key: Option<seq<Name>>)
    ensures ok <==> KeyAccepted(d)
    ensures ok ==> key == KeyOf(d)
    ensures ok ==> (key.Some? <==> d.key.Some? && d.key.value.resolvable)
    ensures ok && key.Some? ==> d.key.value.fields.Some? && key.value == Tokens(d.key.value.fields.value, "")
  {
    ok, key := true, None;
    if d.key.Some? && d.key.value.resolvable {
      if d.key.value.fields.None? {
        return false, None;
      }
      key := ParseKeyFields(d, d.key.value.fields.value);
      ok := key.Some?;
    }
  }

  ghost predicate KeysAccepted(defs: seq<Def>) {
    forall a :: 0 <= a < |defs| ==> KeyAccepted(defs[a].d)
  }

  lemma {:induction false} DeclsSnoc(defs: seq<Def>, a: nat)
    requires a < |defs|
    ensures DeclsOf(defs[..a + 1]) == DeclsOf(defs[..a]) + DeclsOfDef(defs[a])
    ensures Supported(DeclsOf(defs)) ==> Supported(DeclsOf(defs[..a + 1]))
  {
    assert defs[..a + 1][..a] == defs[..a];
    DeclsPrefix(defs, a + 1);
    if Supported(DeclsOf(defs)) {
      SupportedPrefix(DeclsOf(defs[..a + 1]), DeclsOf(defs));
    }
  }

  lemma AcceptedSnoc(defs: seq<Def>, a: nat)
    requires a < |defs|
    ensures KeysAccepted(defs[..a + 1]) <==> KeysAccepted(defs[..a]) && KeyAccepted(defs[a].d)
    ensures KeysAccepted(defs) ==> KeyAccepted(defs[a].d)
  {
    assert forall b :: 0 <= b < a ==> defs[..a + 1][b] == defs[b] && defs[..a][b] == defs[b];
    assert defs[..a + 1][a] == defs[a];
  }

  /** Merges the field declarations and keys of one entity. */
  method MergeEntity(defs: seq<Def>, n: nat)
    returns (ok: bool, fields: map<Name, MergedField>, names: seq<Name>, ks: seq<Option<seq<Name>>>)
    requires forall a :: 0 <= a < |defs| ==> defs[a].i < n
    ensures ok <==> KeysAccepted(defs) && Supported(DeclsOf(defs))
    ensures ok ==> Merges(fields, names, DeclsOf(defs)) && ks == KeysTable(defs, n)
  {
    fields, names, ks, ok := map[], [], seq(n, i => None), true;
    assert ks == KeysTable(defs[..0], n);
    for a := 0 to |defs|
      invariant ok && KeysAccepted(defs[..a])
      invariant Supported(DeclsOf(defs[..a])) && Merges(fields, names, DeclsOf(defs[..a]))
      invariant ks == KeysTable(defs[..a], n)
    {
      KeysSnoc(defs, a, n);
      DeclsSnoc(defs, a);
      AcceptedSnoc(defs, a);
      var accepted, key := KeyFor(defs[a].d);
      if !accepted {
        ok := false;
        return;
      }
      if key.Some? {
        ks := ks[defs[a].i := key];
      }
      ok, fields, names := MergeDef(defs[a], fields, names, DeclsOf(defs[..a]));
      if !ok {
        return;
      }
    }
    assert defs[..|defs|] == defs;
  }

  lemma {:induction false} OwnersOf(ds: seq<Decl>, f: Name, i: nat)
    ensures i in OwnersIn(ds, f) <==> exists d :: d in ds && OwnedBy(d, i, f)
  {
    if ds != [] {
      var n := |ds| - 1;
      OwnersOf(ds[..n], f, i);
      assert ds == ds[..n] + [ds[n]];
      assert forall d :: d in ds <==> d in ds[..n] || d == ds[n];
      assert i in OwnersIn(ds, f) <==> i in OwnersIn(ds[..n], f) || OwnedBy(ds[n], i, f);
    }
  }

  predicate OwnedBy(d: Decl, i: nat, f: Name) {
    d.i == i && d.def.name == f && !d.external
  }

  /** Every subgraph that resolves some field of the entity. */
  ghost predicate IsUnion(union: set<nat>, ds: seq<Decl>, names: set<Name>) {
    forall i :: i in union <==> exists f :: f in names && i in OwnersIn(ds, f)
  }

  lemma {:induction false} UnionOwns(union: set<nat>, ds: seq<Decl>, i: nat)
    requires IsUnion(union, ds, NamesIn(ds))
    ensures i in union <==> OwnsSome(ds, i)
  {
    if i in union {
      var f :| f in NamesIn(ds) && i in OwnersIn(ds, f);
      OwnersOf(ds, f, i);
    }
    if OwnsSome(ds, i) {
      var a :| 0 <= a < |ds| && ds[a].i == i && !ds[a].external;
      OwnersOf(ds, ds[a].def.name, i);
      assert OwnedBy(ds[a], i, ds[a].def.name);
      assert ds[a].def.name in NamesIn(ds);
    }
  }

  /** Every key an owner needs can be handed over by every subgraph that
      returns the entity. */
  ghost predicate AllProvide(defs: seq<Def>, ds: seq<Decl>) {
    forall a, s: nat :: 0 <= a < |defs| && OwnsSome(ds, s) && s != defs[a].i ==> Provides(defs[a].d, KeyAt(defs, s))
  }

  method CheckKeys(defs: seq<Def>, n: nat, ks: seq<Option<seq<Name>>>, union: set<nat>, ghost ds: seq<Decl>) returns (ok: bool)
    requires ks == KeysTable(defs, n) && IsUnion(union, ds, NamesIn(ds))
    requires forall i :: i in union ==> i < n
    ensures ok <==> AllProvide(defs, ds)
  {
    ok := true;
    for a := 0 to |defs|
      invariant ok
      invariant forall c, s: nat :: 0 <= c < a && s in union && s != defs[c].i ==> Provides(defs[c].d, KeyAt(defs, s))
    {
      for s := 0 to n
        invariant ok
        invariant forall r: nat :: r < s && r in union && r != defs[a].i ==> Provides(defs[a].d, KeyAt(defs, r))
      {
        if s in union && s != defs[a].i && !Provides(defs[a].d, ks[s]) {
          UnionOwns(union, ds, s);
          return false;
        }
      }
    }
    forall s: nat ensures s in union <==> OwnsSome(ds, s) {
      UnionOwns(union, ds, s);
    }
  }

  /** Enters the owners of every merged field and collects them all. */
  method RecordOwners(was: OwnerTable, t: Name, fields: map<Name, MergedField>, names: seq<Name>, ghost ds: seq<Decl>)
    returns (ok: bool, now: OwnerTable, union: set<nat>)
    requires Merges(fields, names, ds)
    ensures ok <==> forall f :: f in NamesIn(ds) ==> OwnersIn(ds, f) != []
    ensures ok ==> IsUnion(union, ds, NamesIn(ds)) && WithOwners(now, was, t, ds, NamesIn(ds))
  {
    union, ok, now := {}, true, was;
    ghost var done: set<Name> := {};
    for c := 0 to |names|
      invariant ok && done == NamesUpTo(names, c) && done <= NamesIn(ds)
      invariant forall f :: f in done ==> OwnersIn(ds, f) != []
      invariant IsUnion(union, ds, done) && WithOwners(now, was, t, ds, done)
    {
      var f := names[c];
      assert f in names && f in fields && MergesField(fields[f], ds, f);
      if !fields[f].resolved {
        ok := false;
        return;
      }
      NamesNext(names, c);
      UnionNext(union, ds, done, f);
      OwnersNext(now, was, t, ds, done, f);
      union := union + (set i | i in fields[f].owners);
      now := now[(t, f) := fields[f].owners];
      done := done + {f};
    }
    AllNames(names, NamesIn(ds));
  }

  lemma AllNames(names: seq<Name>, all: set<Name>)
    requires forall f :: f in all <==> f in names
    ensures NamesUpTo(names, |names|) == all
  {
  }

  /** The tables composition fills. */
  class Composer {
    var owners: OwnerTable
    var keys: map<Name, seq<Option<seq<Name>>>>

    constructor ()
      ensures owners == map[] && keys == map[]
    {
      owners, keys := map[], map[];
    }

    /** Composes one entity type: fills in the owners of its fields and the
        key every subgraph resolves it by, or reports that it breaks a rule. */
    method ComposeEntity(t: Name, defs: seq<Def>, n: nat) returns (ok: bool)
      requires forall a :: 0 <= a < |defs| ==> defs[a].i < n
      modifies this
      ensures ok <==> EntityOk(defs)
      ensures ok ==> WithOwners(owners, old(owners), t, DeclsOf(defs), NamesIn(DeclsOf(defs)))
      ensures ok ==> keys == old(keys)[t := KeysTable(defs, n)]
    {
      var merged, fields, names, ks := MergeEntity(defs, n);
      if !merged {
        return false;
      }
      var resolved, table, union := RecordOwners(owners, t, fields, names, DeclsOf(defs));
      owners := table;
      if !resolved {
        return false;
      }
      UnionBelow(defs, n, union);
      ok := CheckKeys(defs, n, ks, union, DeclsOf(defs));
      if ok {
        keys := keys[t := ks];
      }
    }

    /** Composes one type: an entity fills the tables, a value type must be
        the same everywhere and leaves them alone. */
    method ComposeType(t: Name, defs: seq<Def>, n: nat) returns (ok: bool)
      requires forall a :: 0 <= a < |defs| ==> defs[a].i < n
      modifies this
      ensures ok <==> GroupOk(defs)
      ensures ok && IsEntity(defs) ==> WithOwners(owners, old(owners), t, DeclsOf(defs), NamesIn(DeclsOf(defs)))
      ensures ok && IsEntity(defs) ==> keys == old(keys)[t := KeysTable(defs, n)]
      ensures ok && !IsEntity(defs) ==> owners == old(owners) && keys == old(keys)
    {
      ok := CheckKinds(defs);
      if !ok {
        return;
      }
      if IsEntity(defs) {
        ok := ComposeEntity(t, defs, n);
      } else {
        ok := CheckIdentical(defs);
      }
    }
  }

  ghost function NamesUpTo(names: seq<Name>, c: nat): set<Name>
    requires c <= |names|
  {
    set j | 0 <= j < c :: names[j]
  }

  lemma UnionNext(union: set<nat>, ds: seq<Decl>, done: set<Name>, f: Name)
    requires IsUnion(union, ds, done)
    ensures IsUnion(union + (set i | i in OwnersIn(ds, f)), ds, done + {f})
  {
    var more := union + (set i | i in OwnersIn(ds, f));
    forall i ensures i in more <==> exists g :: g in done + {f} && i in OwnersIn(ds, g) {
      if i in OwnersIn(ds, f) {
        assert f in done + {f};
      } else if i in union {
        var g :| g in done && i in OwnersIn(ds, g);
        assert g in done + {f};
      }
    }
  }

  lemma OwnersNext(now: OwnerTable, was: OwnerTable, t: Name, ds: seq<Decl>, done: set<Name>, f: Name)
    requires WithOwners(now, was, t, ds, done)
    ensures WithOwners(now[(t, f) := OwnersIn(ds, f)], was, t, ds, done + {f})
  {
  }

  lemma {:induction false} DeclsBelow(defs: seq<Def>, n: nat)
    requires forall a :: 0 <= a < |defs| ==> defs[a].i < n
    ensures forall a :: 0 <= a < |DeclsOf(defs)| ==> DeclsOf(defs)[a].i < n
  {
    if defs != [] {
      DeclsBelow(defs[..|defs| - 1], n);
    }
  }

  lemma {:induction false} UnionBelow(defs: seq<Def>, n: nat, union: set<nat>)
    requires forall a :: 0 <= a < |defs| ==> defs[a].i < n
    requires IsUnion(union, DeclsOf(defs), NamesIn(DeclsOf(defs)))
    ensures forall i :: i in union ==> i < n
  {
    DeclsBelow(defs, n);
    forall i | i in union ensures i < n {
      UnionOwns(union, DeclsOf(defs), i);
    }
  }

  // ----- whole supergraphs

  const RESERVED: set<Name> := {"_Any", "_FieldSet", "_Service", "_Entity", "link__Import", "link__Purpose"}
  const BUILT_IN: set<Name> := {"Int", "Float", "String", "Boolean", "ID"}
  const ROOT_TYPES: seq<Name> := ["Query", "Mutation"]

  /** Types composition leaves out of the groups. */
  predicate Skipped(t: Name) {
    IsMeta(t) || t in RESERVED || t in BUILT_IN || t in ROOT_TYPES
  }

  function DefOf(s: SubSchema, t: Name): Option<TypeDef> {
    if Skipped(t) then None else Lookup(s.types, t)
  }

  /** Every definition of type `t`, by ascending subgraph. */
  function DefsOf(subs: seq<SubSchema>, t: Name): seq<Def> {
    if subs == [] then []
    else
      var n := |subs| - 1;
      DefsOf(subs[..n], t) + (if DefOf(subs[n], t).Some? then [Def(n, DefOf(subs[n], t).value)] else [])
  }

  /** Root field `f`, not counting the federation service fields. */
  predicate HasRoot(s: SubSchema, root: Name, f: Name) {
    var d := Lookup(s.types, root);
    f !in {"_entities", "_service"} && d.Some? && d.value.kind.ObjectKind? && DeclaresField(d.value, f)
  }

  predicate RootsNamed(s: SubSchema) {
    && s.query == Some("Query")
    && (s.mutation.Some? ==> s.mutation.value == "Mutation")
    && s.subscription.None?
  }

  /** No root field has two owners. */
  ghost predicate RootsUnique(subs: seq<SubSchema>) {
    forall i, j, root, f :: 0 <= i < j < |subs| && root in ROOT_TYPES ==> !(HasRoot(subs[i], root, f) && HasRoot(subs[j], root, f))
  }

  function StripField(f: FieldDef): FieldDef {
    f.(external := false, unsupported := false)
  }

  /** A definition without federation directives. */
  function Stripped(d: TypeDef): TypeDef {
    d.(key := None, external := false,
       fields := seq(|d.fields|, i requires 0 <= i < |d.fields| => StripField(d.fields[i])))
  }

  predicate IsEntity(defs: seq<Def>) {
    exists a :: 0 <= a < |defs| && defs[a].d.kind.ObjectKind? && defs[a].d.key.Some?
  }

  predicate KindsAgree(defs: seq<Def>) {
    forall a :: 0 <= a < |defs| ==>
      defs[a].d.kind == defs[0].d.kind && !(defs[a].d.kind.InterfaceKind? && defs[a].d.key.Some?)
  }

  predicate Identical(defs: seq<Def>) {
    forall a :: 0 <= a < |defs| ==> Stripped(defs[a].d) == Stripped(defs[0].d)
  }

  ghost predicate GroupOk(defs: seq<Def>) {
    KindsAgree(defs) && (if IsEntity(defs) then EntityOk(defs) else Identical(defs))
  }

  /** Which inputs compose (up to the final schema validation). */
  ghost predicate Composable(names: seq<string>, subs: seq<SubSchema>) {
    subs != [] && Distinct(names) && AllRootsNamed(subs) && RootsUnique(subs) && HasQueryField(subs) && GroupsOk(subs)
  }

  ghost predicate AllRootsNamed(subs: seq<SubSchema>) {
    forall i :: 0 <= i < |subs| ==> RootsNamed(subs[i])
  }

  ghost predicate HasQueryField(subs: seq<SubSchema>) {
    exists i, f :: 0 <= i < |subs| && HasRoot(subs[i], "Query", f)
  }

  ghost predicate GroupsOk(subs: seq<SubSchema>) {
    forall t :: GroupOk(DefsOf(subs, t))
  }

  /** What the tables of a composed supergraph hold. */
  ghost predicate Tables(e: Engine, subs: seq<SubSchema>) {
    && (forall t :: t in e.keys <==> IsEntity(DefsOf(subs, t)))
    && (forall t :: t in e.keys ==> e.keys[t] == KeysTable(DefsOf(subs, t), |subs|))
    && (forall t, f :: (t, f) in e.owners <==>
          (exists i :: 0 <= i < |subs| && t in ROOT_TYPES && HasRoot(subs[i], t, f))
          || (t in e.keys && f in NamesIn(DeclsOf(DefsOf(subs, t)))))
    && (forall t, f, i: nat :: i < |subs| && t in ROOT_TYPES && HasRoot(subs[i], t, f) ==>
          (t, f) in e.owners && e.owners[(t, f)] == [i])
    && (forall t, f :: t in e.keys && (t, f) in e.owners ==> e.owners[(t, f)] == OwnersIn(DeclsOf(DefsOf(subs, t)), f))
  }

  // ----- root fields

  /** The owner table of root fields after the subgraphs `subs`. */
  ghost predicate RootTable(tbl: OwnerTable, subs: seq<SubSchema>) {
    && (forall t, f :: (t, f) in tbl <==> exists i :: 0 <= i < |subs| && t in ROOT_TYPES && HasRoot(subs[i], t, f))
    && (forall t, f, i: nat :: i < |subs| && t in ROOT_TYPES && HasRoot(subs[i], t, f) ==> (t, f) in tbl && tbl[(t, f)] == [i])
  }

  /** The table after subgraph `i`'s fields `fs` of `root` were entered. */
  ghost predicate RootsAdded(now: OwnerTable, was: OwnerTable, i: nat, root: Name, fs: seq<FieldDef>) {
    && (forall t, f :: (t, f) in now <==> (t, f) in was || (t == root && Entered(fs, f)))
    && (forall t, f :: (t, f) in now ==> now[(t, f)] == if t == root && Entered(fs, f) then [i] else was[(t, f)])
  }

  ghost predicate Entered(fs: seq<FieldDef>, f: Name) {
    f !in {"_entities", "_service"} && exists k :: 0 <= k < |fs| && fs[k].name == f
  }

  ghost predicate Clashes(was: OwnerTable, root: Name, fs: seq<FieldDef>) {
    exists f :: Entered(fs, f) && (root, f) in was
  }

  lemma EnteredSnoc(fs: seq<FieldDef>, k: nat, f: Name)
    requires k < |fs|
    ensures Entered(fs[..k + 1], f) <==> Entered(fs[..k], f) || (f == fs[k].name && f !in {"_entities", "_service"})
  {
    assert forall j :: 0 <= j < k ==> fs[..k + 1][j] == fs[..k][j];
    assert fs[..k + 1][k] == fs[k];
  }

  method AddRoots(was: OwnerTable, i: nat, root: Name, fs: seq<FieldDef>) returns (ok: bool, now: OwnerTable)
    requires UniqueFields(fs)
    ensures ok <==> !Clashes(was, root, fs)
    ensures ok ==> RootsAdded(now, was, i, root, fs)
  {
    ok, now := true, was;
    for k := 0 to |fs|
      invariant ok && RootsAdded(now, was, i, root, fs[..k]) && !Clashes(was, root, fs[..k])
    {
      var f := fs[k].name;
      forall g ensures Entered(fs[..k + 1], g) <==> Entered(fs[..k], g) || (g == f && g !in {"_entities", "_service"}) {
        EnteredSnoc(fs, k, g);
      }
      if f !in {"_entities", "_service"} {
        assert !Entered(fs[..k], f);
        if (root, f) in now {
          ok := false;
          assert Entered(fs, f);
          return;
        }
        now := now[(root, f) := [i]];
      }
    }
    assert fs[..|fs|] == fs;
  }

  function RootFieldList(s: SubSchema, root: Name): seq<FieldDef> {
    var d := Lookup(s.types, root);
    if d.Some? && d.value.kind.ObjectKind? then d.value.fields else []
  }

  lemma RootEntered(s: SubSchema, root: Name, f: Name)
    ensures HasRoot(s, root, f) <==> Entered(RootFieldList(s, root), f)
  {
  }

  lemma {:induction false} LookupUnique(types: seq<NamedType>, t: Name)
    requires forall i :: 0 <= i < |types| ==> UniqueFields(types[i].def.fields)
    ensures Lookup(types, t).Some? ==> UniqueFields(Lookup(types, t).value.fields)
  {
    if types != [] && types[|types| - 1].name != t {
      LookupUnique(types[..|types| - 1], t);
    }
  }

  /** A clash while entering subgraph `i`'s root fields is a shared field. */
  lemma {:induction false} ClashShared(tbl: OwnerTable, subs: seq<SubSchema>, i: nat, root: Name)
    requires i < |subs| && root in ROOT_TYPES
    requires forall f :: (root, f) in tbl <==> exists j :: 0 <= j < i && HasRoot(subs[j], root, f)
    ensures Clashes(tbl, root, RootFieldList(subs[i], root)) <==> exists j, f :: 0 <= j < i && HasRoot(subs[j], root, f) && HasRoot(subs[i], root, f)
  {
    var fs := RootFieldList(subs[i], root);
    if Clashes(tbl, root, fs) {
      var f :| Entered(fs, f) && (root, f) in tbl;
      RootEntered(subs[i], root, f);
      var j :| 0 <= j < i && HasRoot(subs[j], root, f);
    }
    if exists j, f :: 0 <= j < i && HasRoot(subs[j], root, f) && HasRoot(subs[i], root, f) {
      var j, f :| 0 <= j < i && HasRoot(subs[j], root, f) && HasRoot(subs[i], root, f);
      RootEntered(subs[i], root, f);
    }
  }

  ghost predicate SharedWith(subs: seq<SubSchema>, i: nat, root: Name)
    requires i < |subs|
  {
    exists j, f :: 0 <= j < i && HasRoot(subs[j], root, f) && HasRoot(subs[i], root, f)
  }

  lemma {:induction false} UniqueStep(subs: seq<SubSchema>, i: nat)
    requires i < |subs| && RootsUnique(subs[..i])
    ensures RootsUnique(subs[..i + 1]) <==> !SharedWith(subs, i, "Query") && !SharedWith(subs, i, "Mutation")
  {
    var now := subs[..i + 1];
    assert now[i] == subs[i] && forall j :: 0 <= j < i ==> now[j] == subs[j] && subs[..i][j] == subs[j];
    assert ROOT_TYPES[0] == "Query" && ROOT_TYPES[1] == "Mutation";
  }

  lemma {:induction false} RootStep(was: OwnerTable, mid: OwnerTable, now: OwnerTable, subs: seq<SubSchema>, i: nat)
    requires i < |subs| && RootTable(was, subs[..i]) && RootsUnique(subs[..i + 1])
    requires RootsAdded(mid, was, i, "Query", RootFieldList(subs[i], "Query"))
    requires RootsAdded(now, mid, i, "Mutation", RootFieldList(subs[i], "Mutation"))
    ensures RootTable(now, subs[..i + 1])
  {
    RootEntries(was, mid, now, subs[i], i);
    RootTableGrows(was, now, subs, i);
  }

  /** What entering one subgraph's root fields adds. */
  ghost predicate RootsGrow(was: OwnerTable, now: OwnerTable, s: SubSchema, i: nat) {
    && (forall t, f :: (t, f) in now <==> (t, f) in was || (t in ROOT_TYPES && HasRoot(s, t, f)))
    && (forall t, f :: t in ROOT_TYPES && HasRoot(s, t, f) ==> (t, f) in now && now[(t, f)] == [i])
    && (forall t, f :: (t, f) in was && !(t in ROOT_TYPES && HasRoot(s, t, f)) ==> now[(t, f)] == was[(t, f)])
  }

  lemma {:induction false} RootEntries(was: OwnerTable, mid: OwnerTable, now: OwnerTable, s: SubSchema, i: nat)
    requires RootsAdded(mid, was, i, "Query", RootFieldList(s, "Query"))
    requires RootsAdded(now, mid, i, "Mutation", RootFieldList(s, "Mutation"))
    ensures RootsGrow(was, now, s, i)
  {
    forall t, f
      ensures (t, f) in now <==> (t, f) in was || (t in ROOT_TYPES && HasRoot(s, t, f))
      ensures t in ROOT_TYPES && HasRoot(s, t, f) ==> now[(t, f)] == [i]
      ensures (t, f) in was && !(t in ROOT_TYPES && HasRoot(s, t, f)) ==> now[(t, f)] == was[(t, f)]
    {
      RootEntered(s, "Query", f);
      RootEntered(s, "Mutation", f);
    }
  }

  lemma {:induction false} RootTableGrows(was: OwnerTable, now: OwnerTable, subs: seq<SubSchema>, i: nat)
    requires i < |subs| && RootTable(was, subs[..i]) && RootsUnique(subs[..i + 1]) && RootsGrow(was, now, subs[i], i)
    ensures RootTable(now, subs[..i + 1])
  {
    var all := subs[..i + 1];
    assert all[i] == subs[i] && forall j :: 0 <= j < i ==> all[j] == subs[j] && subs[..i][j] == subs[j];
    forall t, f ensures (t, f) in now <==> exists j :: 0 <= j < |all| && t in ROOT_TYPES && HasRoot(all[j], t, f) {
      if (t, f) in was {
        var j :| 0 <= j < i && t in ROOT_TYPES && HasRoot(subs[..i][j], t, f);
        assert HasRoot(all[j], t, f);
      } else if t in ROOT_TYPES && HasRoot(subs[i], t, f) {
        assert HasRoot(all[i], t, f);
      }
    }
    forall t, f, j: nat | j < |all| && t in ROOT_TYPES && HasRoot(all[j], t, f) ensures (t, f) in now && now[(t, f)] == [j] {
      if j < i {
        assert HasRoot(subs[..i][j], t, f);
      }
    }
  }

  method ComposeRoots(subs: seq<SubSchema>) returns (ok: bool, tbl: OwnerTable)
    requires forall i :: 0 <= i < |subs| ==> UniqueNames(subs[i])
    ensures ok <==> RootsUnique(subs)
    ensures ok ==> RootTable(tbl, subs)
  {
    ok, tbl := true, map[];
    for i := 0 to |subs|
      invariant ok && RootsUnique(subs[..i]) && RootTable(tbl, subs[..i])
    {
      LookupUnique(subs[i].types, "Query");
      LookupUnique(subs[i].types, "Mutation");
      UniqueStep(subs, i);
      TableBefore(tbl, subs, i);
      ClashShared(tbl, subs, i, "Query");
      var mid;
      ok, mid := AddRoots(tbl, i, "Query", RootFieldList(subs[i], "Query"));
      if !ok {
        NotUnique(subs, i);
        return;
      }
      var now;
      ClashShared(mid, subs, i, "Mutation");
      ok, now := AddRoots(mid, i, "Mutation", RootFieldList(subs[i], "Mutation"));
      if !ok {
        NotUnique(subs, i);
        return;
      }
      RootStep(tbl, mid, now, subs, i);
      tbl := now;
    }
    assert subs[..|subs|] == subs;
  }

  lemma TableBefore(tbl: OwnerTable, subs: seq<SubSchema>, i: nat)
    requires i < |subs| && RootTable(tbl, subs[..i])
    ensures forall root, f :: root in ROOT_TYPES ==> ((root, f) in tbl <==> exists j :: 0 <= j < i && HasRoot(subs[j], root, f))
  {
    assert forall j :: 0 <= j < i ==> subs[..i][j] == subs[j];
    forall root, f | root in ROOT_TYPES ensures (root, f) in tbl <==> exists j :: 0 <= j < i && HasRoot(subs[j], root, f) {
      if exists j :: 0 <= j < i && HasRoot(subs[j], root, f) {
        var j :| 0 <= j < i && HasRoot(subs[j], root, f);
        assert HasRoot(subs[..i][j], root, f);
      }
    }
  }

  lemma NotUnique(subs: seq<SubSchema>, i: nat)
    requires i < |subs| && !RootsUnique(subs[..i + 1])
    ensures !RootsUnique(subs)
  {
    assert forall j :: 0 <= j <= i ==> subs[..i + 1][j] == subs[j];
  }

  // ----- grouping types by name

  ghost predicate Grouped(groups: map<Name, seq<Def>>, order: seq<Name>, subs: seq<SubSchema>) {
    && (forall t :: t in groups <==> t in order)
    && (forall t :: t in groups <==> DefsOf(subs, t) != [])
    && (forall t :: t in groups ==> groups[t] == DefsOf(subs, t))
  }

  /** Groups while the types of subgraph `n` are being entered. */
  ghost predicate GroupedUpTo(groups: map<Name, seq<Def>>, order: seq<Name>, subs: seq<SubSchema>, n: nat, types: seq<NamedType>) {
    && (forall t :: t in groups <==> t in order)
    && (forall t :: t in groups <==> DefsWith(subs, n, types, t) != [])
    && (forall t :: t in groups ==> groups[t] == DefsWith(subs, n, types, t))
  }

  function DefsWith(subs: seq<SubSchema>, n: nat, types: seq<NamedType>, t: Name): seq<Def> {
    DefsOf(subs, t) + (if !Skipped(t) && Lookup(types, t).Some? then [Def(n, Lookup(types, t).value)] else [])
  }

  lemma {:induction false} LookupFresh(types: seq<NamedType>, b: nat)
    requires b < |types| && forall i, j :: 0 <= i < j < |types| ==> types[i].name != types[j].name
    ensures Lookup(types[..b], types[b].name).None?
    ensures Lookup(types[..b + 1], types[b].name) == Some(types[b].def)
    ensures forall t :: t != types[b].name ==> Lookup(types[..b + 1], t) == Lookup(types[..b], t)
  {
    assert types[..b + 1][..b] == types[..b];
    LookupAbsent(types[..b], types[b].name);
  }

  lemma {:induction false} LookupAbsent(types: seq<NamedType>, t: Name)
    requires forall i :: 0 <= i < |types| ==> types[i].name != t
    ensures Lookup(types, t).None?
  {
    if types != [] {
      LookupAbsent(types[..|types| - 1], t);
    }
  }

  lemma {:induction false} GroupStep(groups: map<Name, seq<Def>>, order: seq<Name>, subs: seq<SubSchema>, n: nat, types: seq<NamedType>, b: nat)
    requires b < |types| && (forall i, j :: 0 <= i < j < |types| ==> types[i].name != types[j].name)
    requires GroupedUpTo(groups, order, subs, n, types[..b])
    ensures var t := types[b].name;
            if Skipped(t) then GroupedUpTo(groups, order, subs, n, types[..b + 1])
            else GroupedUpTo(groups[t := (if t in groups then groups[t] else []) + [Def(n, types[b].def)]],
                             if t in groups then order else order + [t], subs, n, types[..b + 1])
  {
    var t := types[b].name;
    LookupFresh(types, b);
    forall u | u != t || Skipped(t) ensures DefsWith(subs, n, types[..b + 1], u) == DefsWith(subs, n, types[..b], u) {
    }
    if !Skipped(t) {
      assert DefsWith(subs, n, types[..b], t) == DefsOf(subs, t);
      assert DefsWith(subs, n, types[..b + 1], t) == DefsOf(subs, t) + [Def(n, types[b].def)];
      Regroup(groups, order, subs, n, types[..b], types[..b + 1], t, Def(n, types[b].def));
    }
  }

  lemma {:induction false} Regroup(groups: map<Name, seq<Def>>, order: seq<Name>, subs: seq<SubSchema>, n: nat,
                                   was: seq<NamedType>, now: seq<NamedType>, t: Name, x: Def)
    requires GroupedUpTo(groups, order, subs, n, was)
    requires DefsWith(subs, n, now, t) == DefsWith(subs, n, was, t) + [x]
    requires forall u :: u != t ==> DefsWith(subs, n, now, u) == DefsWith(subs, n, was, u)
    ensures GroupedUpTo(groups[t := (if t in groups then groups[t] else []) + [x]],
                        if t in groups then order else order + [t], subs, n, now)
  {
  }

  lemma {:induction false} GroupsComplete(groups: map<Name, seq<Def>>, order: seq<Name>, subs: seq<SubSchema>, s: SubSchema)
    requires GroupedUpTo(groups, order, subs, |subs|, s.types)
    ensures Grouped(groups, order, subs + [s])
  {
    assert (subs + [s])[..|subs|] == subs;
    forall t ensures DefsOf(subs + [s], t) == DefsWith(subs, |subs|, s.types, t) {
    }
  }

  method AddTypes(groups0: map<Name, seq<Def>>, order0: seq<Name>, n: nat, s: SubSchema, ghost subs: seq<SubSchema>)
    returns (groups: map<Name, seq<Def>>, order: seq<Name>)
    requires UniqueNames(s) && Grouped(groups0, order0, subs) && n == |subs|
    ensures Grouped(groups, order, subs + [s])
  {
    groups, order := groups0, order0;
    var types := s.types;
    StartGroups(groups0, order0, subs, types);
    for b := 0 to |types|
      invariant GroupedUpTo(groups, order, subs, n, types[..b])
    {
      var t := types[b].name;
      GroupStep(groups, order, subs, n, types, b);
      if !Skipped(t) {
        var before := if t in groups then groups[t] else [];
        order := if t in groups then order else order + [t];
        groups := groups[t := before + [Def(n, types[b].def)]];
      }
    }
    assert types[..|types|] == types;
    GroupsComplete(groups, order, subs, s);
  }

  lemma StartGroups(groups: map<Name, seq<Def>>, order: seq<Name>, subs: seq<SubSchema>, types: seq<NamedType>)
    requires Grouped(groups, order, subs)
    ensures GroupedUpTo(groups, order, subs, |subs|, types[..0])
  {
    assert types[..0] == [];
    forall t ensures DefsWith(subs, |subs|, [], t) == DefsOf(subs, t) {
    }
  }

  method GroupTypes(subs: seq<SubSchema>) returns (groups: map<Name, seq<Def>>, order: seq<Name>)
    requires forall i :: 0 <= i < |subs| ==> UniqueNames(subs[i])
    ensures Grouped(groups, order, subs)
  {
    groups, order := map[], [];
    for i := 0 to |subs|
      invariant Grouped(groups, order, subs[..i])
    {
      groups, order := AddTypes(groups, order, i, subs[i], subs[..i]);
      assert subs[..i + 1] == subs[..i] + [subs[i]];
    }
    assert subs[..|subs|] == subs;
  }

  lemma {:induction false} DefsBelow(subs: seq<SubSchema>, t: Name)
    ensures forall a :: 0 <= a < |DefsOf(subs, t)| ==> DefsOf(subs, t)[a].i < |subs|
  {
    if subs != [] {
      DefsBelow(subs[..|subs| - 1], t);
    }
  }

  lemma {:induction false} ObjectsOnly(defs: seq<Def>)
    requires KindsAgree(defs) && IsEntity(defs)
    ensures forall a :: 0 <= a < |defs| ==> defs[a].d.kind.ObjectKind?
  {
  }

  method CheckKinds(defs: seq<Def>) returns (ok: bool)
    ensures ok <==> KindsAgree(defs)
  {
    for a := 0 to |defs|
      invariant forall c :: 0 <= c < a ==> defs[c].d.kind == defs[0].d.kind && !(defs[c].d.kind.InterfaceKind? && defs[c].d.key.Some?)
    {
      if defs[a].d.kind != defs[0].d.kind || (defs[a].d.kind.InterfaceKind? && defs[a].d.key.Some?) {
        return false;
      }
    }
    ok := true;
  }

  method CheckIdentical(defs: seq<Def>) returns (ok: bool)
    ensures ok <==> Identical(defs)
  {
    for a := 0 to |defs|
      invariant forall c :: 0 <= c < a ==> Stripped(defs[c].d) == Stripped(defs[0].d)
    {
      if Stripped(defs[a].d) != Stripped(defs[0].d) {
        return false;
      }
    }
    ok := true;
  }

  /** The tables after the types `done` were composed onto the root table. */
  ghost predicate TablesUpTo(owners: OwnerTable, keys: map<Name, seq<Option<seq<Name>>>>, roots: OwnerTable,
                             subs: seq<SubSchema>, done: set<Name>) {
    && (forall t :: t in keys <==> t in done && IsEntity(DefsOf(subs, t)))
    && (forall t :: t in keys ==> keys[t] == KeysTable(DefsOf(subs, t), |subs|))
    && (forall t, f :: (t, f) in owners <==> (t, f) in roots || (t in keys && f in NamesIn(DeclsOf(DefsOf(subs, t)))))
    && (forall t, f :: (t, f) in owners ==>
          owners[(t, f)] == if t in keys then OwnersIn(DeclsOf(DefsOf(subs, t)), f) else roots[(t, f)])
  }

  lemma {:induction false} TablesStep(owners: OwnerTable, keys: map<Name, seq<Option<seq<Name>>>>, owners': OwnerTable,
                                      roots: OwnerTable, subs: seq<SubSchema>, done: set<Name>, t: Name)
    requires TablesUpTo(owners, keys, roots, subs, done) && IsEntity(DefsOf(subs, t))
    requires forall f :: (t, f) !in roots
    requires WithOwners(owners', owners, t, DeclsOf(DefsOf(subs, t)), NamesIn(DeclsOf(DefsOf(subs, t))))
    ensures TablesUpTo(owners', keys[t := KeysTable(DefsOf(subs, t), |subs|)], roots, subs, done + {t})
  {
  }

  lemma {:induction false} TypesOwnNoRoots(roots: OwnerTable, subs: seq<SubSchema>, t: Name)
    requires RootTable(roots, subs) && DefsOf(subs, t) != []
    ensures forall f :: (t, f) !in roots
  {
    TypesNotRoots(subs, t);
  }

  lemma {:induction false} TypesNotRoots(subs: seq<SubSchema>, t: Name)
    requires DefsOf(subs, t) != []
    ensures !Skipped(t)
  {
    var n := |subs| - 1;
    if DefOf(subs[n], t).None? {
      TypesNotRoots(subs[..n], t);
    }
  }

  /** Composes the grouped types one by one. */
  method ComposeTypes(subs: seq<SubSchema>, groups: map<Name, seq<Def>>, order: seq<Name>, roots: OwnerTable)
    returns (ok: bool, e: Engine)
    requires Grouped(groups, order, subs) && RootTable(roots, subs)
    ensures ok <==> GroupsOk(subs)
    ensures ok ==> TablesUpTo(e.owners, e.keys, roots, subs, groups.Keys)
  {
    var c := new Composer();
    c.owners := roots;
    e, ok := Engine(map[], map[]), true;
    for k := 0 to |order|
      invariant ok && DoneOk(subs, NamesUpTo(order, k))
      invariant TablesUpTo(c.owners, c.keys, roots, subs, NamesUpTo(order, k))
    {
      var t := order[k];
      GroupAt(groups, order, subs, roots, k);
      ghost var was, keysWas := c.owners, c.keys;
      ok := c.ComposeType(t, groups[t], |subs|);
      if !ok {
        return;
      }
      TypeComposed(was, keysWas, c.owners, c.keys, roots, subs, NamesUpTo(order, k), t);
      NamesNext(order, k);
    }
    EveryGroup(groups, order, subs);
    e := Engine(c.owners, c.keys);
  }

  lemma NamesNext(names: seq<Name>, k: nat)
    requires k < |names|
    ensures NamesUpTo(names, k + 1) == NamesUpTo(names, k) + {names[k]}
  {
  }

  ghost predicate DoneOk(subs: seq<SubSchema>, done: set<Name>) {
    forall t :: t in done ==> GroupOk(DefsOf(subs, t))
  }

  lemma {:induction false} GroupAt(groups: map<Name, seq<Def>>, order: seq<Name>, subs: seq<SubSchema>, roots: OwnerTable, k: nat)
    requires Grouped(groups, order, subs) && RootTable(roots, subs) && k < |order|
    ensures order[k] in groups && groups[order[k]] == DefsOf(subs, order[k])
    ensures forall a :: 0 <= a < |groups[order[k]]| ==> groups[order[k]][a].i < |subs|
    ensures forall f :: (order[k], f) !in roots
    ensures GroupOk(groups[order[k]]) || !GroupsOk(subs)
  {
    assert order[k] in order;
    DefsBelow(subs, order[k]);
    TypesOwnNoRoots(roots, subs, order[k]);
  }

  lemma {:induction false} TypeComposed(was: OwnerTable, keysWas: map<Name, seq<Option<seq<Name>>>>,
                                        now: OwnerTable, keysNow: map<Name, seq<Option<seq<Name>>>>,
                                        roots: OwnerTable, subs: seq<SubSchema>, done: set<Name>, t: Name)
    requires TablesUpTo(was, keysWas, roots, subs, done) && DoneOk(subs, done) && GroupOk(DefsOf(subs, t))
    requires forall f :: (t, f) !in roots
    requires if IsEntity(DefsOf(subs, t)) then
               WithOwners(now, was, t, DeclsOf(DefsOf(subs, t)), NamesIn(DeclsOf(DefsOf(subs, t))))
               && keysNow == keysWas[t := KeysTable(DefsOf(subs, t), |subs|)]
             else now == was && keysNow == keysWas
    ensures TablesUpTo(now, keysNow, roots, subs, done + {t}) && DoneOk(subs, done + {t})
  {
    if IsEntity(DefsOf(subs, t)) {
      TablesStep(was, keysWas, now, roots, subs, done, t);
    } else {
      TablesSkip(was, keysWas, roots, subs, done, t);
    }
  }

  lemma {:induction false} TablesSkip(owners: OwnerTable, keys: map<Name, seq<Option<seq<Name>>>>, roots: OwnerTable,
                                      subs: seq<SubSchema>, done: set<Name>, t: Name)
    requires TablesUpTo(owners, keys, roots, subs, done) && !IsEntity(DefsOf(subs, t))
    ensures TablesUpTo(owners, keys, roots, subs, done + {t})
  {
  }

  lemma {:induction false} EveryGroup(groups: map<Name, seq<Def>>, order: seq<Name>, subs: seq<SubSchema>)
    requires Grouped(groups, order, subs) && DoneOk(subs, NamesUpTo(order, |order|))
    ensures GroupsOk(subs) && NamesUpTo(order, |order|) == groups.Keys
  {
    AllNames(order, groups.Keys);
    forall t ensures GroupOk(DefsOf(subs, t)) {
      if t !in groups {
        assert DefsOf(subs, t) == [];
      }
    }
  }

  method CheckDistinct(names: seq<string>) returns (ok: bool)
    ensures ok <==> Distinct(names)
  {
    var seen: set<string> := {};
    for i := 0 to |names|
      invariant seen == set k | 0 <= k < i :: names[k]
      invariant forall a, b :: 0 <= a < b < i ==> names[a] != names[b]
    {
      if names[i] in seen {
        return false;
      }
      seen := seen + {names[i]};
    }
    ok := true;
  }

  method CheckRootNames(subs: seq<SubSchema>) returns (ok: bool)
    ensures ok <==> AllRootsNamed(subs)
  {
    for i := 0 to |subs|
      invariant forall k :: 0 <= k < i ==> RootsNamed(subs[k])
    {
      if !RootsNamed(subs[i]) {
        return false;
      }
    }
    ok := true;
  }

  /** Composes named subgraphs: succeeds exactly on composable inputs, with
      exactly their tables. */
  method ComposeAll(names: seq<string>, subs: seq<SubSchema>) returns (r: Option<Engine>)
    requires |names| == |subs|
    requires forall i :: 0 <= i < |subs| ==> UniqueNames(subs[i])
    ensures r.Some? <==> Composable(names, subs)
    ensures r.Some? ==> Tables(r.value, subs)
  {
    r := None;
    if subs == [] {
      return;
    }
    var ok := CheckDistinct(names);
    if !ok {
      return;
    }
    ok := CheckRootNames(subs);
    if !ok {
      return;
    }
    var roots;
    ok, roots := ComposeRoots(subs);
    if !ok {
      return;
    }
    QueryFields(roots, subs);
    if !exists p :: p in roots && p.0 == "Query" {
      return;
    }
    var groups, order := GroupTypes(subs);
    var e;
    ok, e := ComposeTypes(subs, groups, order, roots);
    if ok {
      TablesDone(e, roots, subs, groups.Keys);
      r := Some(e);
    }
  }

  lemma QueryFields(roots: OwnerTable, subs: seq<SubSchema>)
    requires RootTable(roots, subs)
    ensures (exists p :: p in roots && p.0 == "Query") <==> HasQueryField(subs)
  {
    if exists p :: p in roots && p.0 == "Query" {
      var p :| p in roots && p.0 == "Query";
      assert (p.0, p.1) in roots;
    }
    if exists i, f :: 0 <= i < |subs| && HasRoot(subs[i], "Query", f) {
      var i, f :| 0 <= i < |subs| && HasRoot(subs[i], "Query", f);
      assert ROOT_TYPES[0] == "Query";
      assert ("Query", f) in roots;
    }
  }

  lemma {:induction false} TablesDone(e: Engine, roots: OwnerTable, subs: seq<SubSchema>, all: set<Name>)
    requires RootTable(roots, subs) && TablesUpTo(e.owners, e.keys, roots, subs, all)
    requires forall t :: t in all <==> DefsOf(subs, t) != []
    ensures Tables(e, subs)
  {
    forall t | t in e.keys ensures t !in ROOT_TYPES {
      TypesNotRoots(subs, t);
    }
  }
}
