/** What a successful composition means: the rules and tables without any
    reference to the order in which subgraphs are visited. */
module Composition {
  import opened Basics
  import opened Plan
  import opened Compose

  // ----- the rules, subgraph by subgraph

  predicate DefinesType(subs: seq<SubSchema>, i: nat, t: Name) {
    i < |subs| && DefOf(subs[i], t).Some?
  }

  function TheDef(subs: seq<SubSchema>, i: nat, t: Name): TypeDef
    requires DefinesType(subs, i, t)
  {
    DefOf(subs[i], t).value
  }

  predicate DeclaredIn(subs: seq<SubSchema>, i: nat, t: Name, f: Name) {
    DefinesType(subs, i, t) && DeclaresField(TheDef(subs, i, t), f)
  }

  predicate FieldOf(subs: seq<SubSchema>, i: nat, t: Name, fd: FieldDef) {
    DefinesType(subs, i, t) && fd in TheDef(subs, i, t).fields
  }

  /** Subgraph `i` declares `t.f` without `@external`. */
  ghost predicate Owns(subs: seq<SubSchema>, i: nat, t: Name, f: Name) {
    exists fd :: FieldOf(subs, i, t, fd) && fd.name == f && !fd.external && !TheDef(subs, i, t).external
  }

  ghost predicate Entity(subs: seq<SubSchema>, t: Name) {
    exists i: nat :: DefinesType(subs, i, t) && TheDef(subs, i, t).kind.ObjectKind? && TheDef(subs, i, t).key.Some?
  }

  ghost predicate SameKinds(subs: seq<SubSchema>, t: Name) {
    && (forall i: nat, j: nat :: DefinesType(subs, i, t) && DefinesType(subs, j, t) ==> TheDef(subs, i, t).kind == TheDef(subs, j, t).kind)
    && (forall i: nat :: DefinesType(subs, i, t) ==> !(TheDef(subs, i, t).kind.InterfaceKind? && TheDef(subs, i, t).key.Some?))
  }

  /** The same definition but for federation directives. */
  ghost predicate SameBut(d: TypeDef, d': TypeDef) {
    && d.kind == d'.kind && d.implements == d'.implements && d.members == d'.members && d.rest == d'.rest
    && |d.fields| == |d'.fields|
    && forall k :: 0 <= k < |d.fields| ==> d.fields[k].name == d'.fields[k].name && d.fields[k].sig == d'.fields[k].sig
  }

  ghost predicate SameShape(subs: seq<SubSchema>, t: Name) {
    forall i: nat, j: nat :: DefinesType(subs, i, t) && DefinesType(subs, j, t) ==> SameBut(TheDef(subs, i, t), TheDef(subs, j, t))
  }

  lemma {:induction false} StrippedExact(d: TypeDef, d': TypeDef)
    ensures Stripped(d) == Stripped(d') <==> SameBut(d, d')
  {
    var s, s' := Stripped(d), Stripped(d');
    if s == s' {
      forall k | 0 <= k < |d.fields| ensures k < |d'.fields| && d.fields[k].name == d'.fields[k].name && d.fields[k].sig == d'.fields[k].sig {
        assert s.fields[k] == s'.fields[k];
      }
      assert |s.fields| == |d.fields| && |s'.fields| == |d'.fields|;
    }
    if SameBut(d, d') {
      forall k | 0 <= k < |d.fields| ensures s.fields[k] == s'.fields[k] {
        assert d.fields[k].name == d'.fields[k].name;
      }
      assert s.fields == s'.fields;
    }
  }

  ghost predicate FieldsAgree(subs: seq<SubSchema>, t: Name) {
    && (forall i: nat, fd :: FieldOf(subs, i, t, fd) ==> !fd.unsupported)
    && (forall i: nat, j: nat, fd, gd :: FieldOf(subs, i, t, fd) && FieldOf(subs, j, t, gd) && fd.name == gd.name ==> fd.sig == gd.sig)
  }

  ghost predicate OwnsAny(subs: seq<SubSchema>, i: nat, t: Name) {
    exists f :: Owns(subs, i, t, f)
  }

  /** The definition has a `@key` by which its subgraph resolves entities. */
  predicate Resolvable(d: TypeDef) {
    d.key.Some? && d.key.value.resolvable
  }

  /** The field names a `@key` lists, `[]` when its `fields` is no string. */
  function Spelled(d: TypeDef): seq<Name> {
    if d.key.Some? && d.key.value.fields.Some? then Tokens(d.key.value.fields.value, "") else []
  }

  /** A resolvable `@key` lists declared fields, at least one, all flat. */
  predicate KeyStated(d: TypeDef) {
    Resolvable(d) ==> Spelled(d) != [] && forall k :: k in Spelled(d) ==> !Nested(k) && DeclaresField(d, k)
  }

  /** `d` declares every field of the resolvable key of `owner`. */
  predicate Addresses(d: TypeDef, owner: TypeDef) {
    Resolvable(owner) && forall k :: k in Spelled(owner) ==> DeclaresField(d, k)
  }

  /** Whoever returns the entity can address it at every other owner. */
  ghost predicate KeysAddress(subs: seq<SubSchema>, t: Name) {
    forall p: nat, s: nat :: DefinesType(subs, p, t) && OwnsAny(subs, s, t) && s != p ==>
      DefinesType(subs, s, t) && Addresses(TheDef(subs, p, t), TheDef(subs, s, t))
  }

  /** The same in the composer's terms. */
  ghost predicate KeysAvailable(subs: seq<SubSchema>, t: Name) {
    forall p: nat, s: nat :: DefinesType(subs, p, t) && OwnsAny(subs, s, t) && s != p ==>
      DefinesType(subs, s, t) && Provides(TheDef(subs, p, t), KeyOf(TheDef(subs, s, t)))
  }

  ghost predicate EntityRules(subs: seq<SubSchema>, t: Name) {
    && (forall i: nat :: DefinesType(subs, i, t) ==> KeyStated(TheDef(subs, i, t)))
    && FieldsAgree(subs, t)
    && (forall i: nat, f :: DeclaredIn(subs, i, t, f) ==> Owned(subs, t, f))
    && KeysAddress(subs, t)
  }

  /** The composition rules for one type. */
  ghost predicate TypeRules(subs: seq<SubSchema>, t: Name) {
    SameKinds(subs, t) && (if Entity(subs, t) then EntityRules(subs, t) else SameShape(subs, t))
  }

  // ----- the composer's lists, by membership

  lemma {:induction false} DefsMember(subs: seq<SubSchema>, t: Name, x: Def)
    ensures x in DefsOf(subs, t) <==> DefinesType(subs, x.i, t) && x.d == TheDef(subs, x.i, t)
  {
    if subs != [] {
      var n := |subs| - 1;
      DefsMember(subs[..n], t, x);
    }
  }

  lemma {:induction false} DeclsMember(defs: seq<Def>, y: Decl)
    ensures y in DeclsOf(defs) <==>
            exists x :: x in defs && y.i == x.i && y.def in x.d.fields && y.external == (x.d.external || y.def.external)
  {
    if defs != [] {
      var n := |defs| - 1;
      var last := defs[n];
      DeclsMember(defs[..n], y);
      assert forall x :: x in defs <==> x in defs[..n] || x == last;
      if y.i == last.i && y.def in last.d.fields && y.external == (last.d.external || y.def.external) {
        var k :| 0 <= k < |last.d.fields| && last.d.fields[k] == y.def;
        assert DeclsOfDef(last)[k] == y;
      }
    }
  }

  ghost predicate IsDecl(subs: seq<SubSchema>, t: Name, y: Decl) {
    FieldOf(subs, y.i, t, y.def) && y.external == (TheDef(subs, y.i, t).external || y.def.external)
  }

  lemma {:induction false} DeclsAre(subs: seq<SubSchema>, t: Name, y: Decl)
    ensures y in DeclsOf(DefsOf(subs, t)) <==> IsDecl(subs, t, y)
  {
    DeclsMember(DefsOf(subs, t), y);
    if y in DeclsOf(DefsOf(subs, t)) {
      var x :| x in DefsOf(subs, t) && y.i == x.i && y.def in x.d.fields && y.external == (x.d.external || y.def.external);
      DefsMember(subs, t, x);
    }
    if IsDecl(subs, t, y) {
      DefsMember(subs, t, Def(y.i, TheDef(subs, y.i, t)));
    }
  }

  lemma {:induction false} OwnersAre(subs: seq<SubSchema>, t: Name, f: Name, i: nat)
    ensures i in OwnersIn(DeclsOf(DefsOf(subs, t)), f) <==> Owns(subs, i, t, f)
  {
    var ds := DeclsOf(DefsOf(subs, t));
    OwnersOf(ds, f, i);
    if i in OwnersIn(ds, f) {
      var d :| d in ds && OwnedBy(d, i, f);
      DeclsAre(subs, t, d);
      assert FieldOf(subs, i, t, d.def);
    }
    if Owns(subs, i, t, f) {
      var fd :| FieldOf(subs, i, t, fd) && fd.name == f && !fd.external && !TheDef(subs, i, t).external;
      DeclsAre(subs, t, Decl(i, fd, false));
      assert OwnedBy(Decl(i, fd, false), i, f);
    }
  }

  lemma {:induction false} OwnsSomeIs(subs: seq<SubSchema>, t: Name, i: nat)
    ensures OwnsSome(DeclsOf(DefsOf(subs, t)), i) <==> OwnsAny(subs, i, t)
  {
    var ds := DeclsOf(DefsOf(subs, t));
    if OwnsSome(ds, i) {
      var a :| 0 <= a < |ds| && ds[a].i == i && !ds[a].external;
      OwnersOf(ds, ds[a].def.name, i);
      assert OwnedBy(ds[a], i, ds[a].def.name);
      OwnersAre(subs, t, ds[a].def.name, i);
    }
    if OwnsAny(subs, i, t) {
      var f :| Owns(subs, i, t, f);
      OwnersAre(subs, t, f, i);
      OwnersOf(ds, f, i);
    }
  }

  lemma {:induction false} NamesAre(subs: seq<SubSchema>, t: Name, f: Name)
    ensures f in NamesIn(DeclsOf(DefsOf(subs, t))) <==> exists i: nat :: DeclaredIn(subs, i, t, f)
  {
    var ds := DeclsOf(DefsOf(subs, t));
    if f in NamesIn(ds) {
      var a :| 0 <= a < |ds| && ds[a].def.name == f;
      DeclsAre(subs, t, ds[a]);
      assert DeclaredIn(subs, ds[a].i, t, f);
    }
    if exists i: nat :: DeclaredIn(subs, i, t, f) {
      var i: nat :| DeclaredIn(subs, i, t, f);
      var d := TheDef(subs, i, t);
      var k :| 0 <= k < |d.fields| && d.fields[k].name == f;
      var y := Decl(i, d.fields[k], d.external || d.fields[k].external);
      DeclsAre(subs, t, y);
      var a :| 0 <= a < |ds| && ds[a] == y;
    }
  }

  lemma {:induction false} KeyAtIs(subs: seq<SubSchema>, t: Name, s: nat)
    ensures KeyAt(DefsOf(subs, t), s) == if DefinesType(subs, s, t) then KeyOf(TheDef(subs, s, t)) else None
  {
    if subs != [] {
      var n := |subs| - 1;
      KeyAtIs(subs[..n], t, s);
      var defs := DefsOf(subs, t);
      if DefOf(subs[n], t).Some? {
        assert defs[..|defs| - 1] == DefsOf(subs[..n], t);
      } else {
        assert defs == DefsOf(subs[..n], t);
      }
    }
  }

  // ----- the rules are what the composer checks

  lemma {:induction false} DefAt(subs: seq<SubSchema>, t: Name, i: nat)
    requires DefinesType(subs, i, t)
    ensures exists a :: 0 <= a < |DefsOf(subs, t)| && DefsOf(subs, t)[a] == Def(i, TheDef(subs, i, t))
  {
    DefsMember(subs, t, Def(i, TheDef(subs, i, t)));
  }

  lemma {:induction false} AtDef(subs: seq<SubSchema>, t: Name, a: nat)
    requires a < |DefsOf(subs, t)|
    ensures var x := DefsOf(subs, t)[a]; DefinesType(subs, x.i, t) && x.d == TheDef(subs, x.i, t)
  {
    DefsMember(subs, t, DefsOf(subs, t)[a]);
  }

  lemma {:induction false} KindsAre(subs: seq<SubSchema>, t: Name)
    ensures KindsAgree(DefsOf(subs, t)) <==> SameKinds(subs, t)
    ensures IsEntity(DefsOf(subs, t)) <==> Entity(subs, t)
    ensures Identical(DefsOf(subs, t)) <==> SameShape(subs, t)
  {
    KindsSame(subs, t);
    EntitiesAre(subs, t);
    ShapesAre(subs, t);
  }

  /** The group of a type lists its definitions, subgraph by subgraph. */
  lemma {:induction false} ListedDefs(subs: seq<SubSchema>, t: Name)
    ensures var defs := DefsOf(subs, t);
            && (forall a: nat :: a < |defs| ==> DefinesType(subs, defs[a].i, t) && defs[a].d == TheDef(subs, defs[a].i, t))
            && (forall i: nat :: DefinesType(subs, i, t) ==> exists a :: 0 <= a < |defs| && defs[a].d == TheDef(subs, i, t))
  {
    var defs := DefsOf(subs, t);
    forall a: nat | a < |defs| ensures DefinesType(subs, defs[a].i, t) && defs[a].d == TheDef(subs, defs[a].i, t) {
      AtDef(subs, t, a);
    }
    forall i: nat | DefinesType(subs, i, t) ensures exists a :: 0 <= a < |defs| && defs[a].d == TheDef(subs, i, t) {
      DefAt(subs, t, i);
      var a :| 0 <= a < |defs| && defs[a] == Def(i, TheDef(subs, i, t));
    }
  }

  lemma {:induction false} KindsSame(subs: seq<SubSchema>, t: Name)
    ensures KindsAgree(DefsOf(subs, t)) <==> SameKinds(subs, t)
  {
    ListedDefs(subs, t);
  }

  lemma {:induction false} EntitiesAre(subs: seq<SubSchema>, t: Name)
    ensures IsEntity(DefsOf(subs, t)) <==> Entity(subs, t)
  {
    ListedDefs(subs, t);
  }

  lemma {:induction false} ShapesAre(subs: seq<SubSchema>, t: Name)
    ensures Identical(DefsOf(subs, t)) <==> SameShape(subs, t)
  {
    ListedDefs(subs, t);
    forall i: nat, j: nat | DefinesType(subs, i, t) && DefinesType(subs, j, t)
      ensures Stripped(TheDef(subs, i, t)) == Stripped(TheDef(subs, j, t)) <==> SameBut(TheDef(subs, i, t), TheDef(subs, j, t))
    {
      StrippedExact(TheDef(subs, i, t), TheDef(subs, j, t));
    }
    StrippedAre(subs, t);
  }

  lemma {:induction false} StrippedAre(subs: seq<SubSchema>, t: Name)
    ensures Identical(DefsOf(subs, t)) <==>
            forall i: nat, j: nat :: DefinesType(subs, i, t) && DefinesType(subs, j, t) ==> Stripped(TheDef(subs, i, t)) == Stripped(TheDef(subs, j, t))
  {
    ListedDefs(subs, t);
  }

  lemma {:induction false} FieldsAre(subs: seq<SubSchema>, t: Name)
    ensures Supported(DeclsOf(DefsOf(subs, t))) <==> FieldsAgree(subs, t)
  {
    if Supported(DeclsOf(DefsOf(subs, t))) {
      SupportedAgree(subs, t);
    }
    if FieldsAgree(subs, t) {
      AgreeSupported(subs, t);
    }
  }

  lemma {:induction false} AgreeSupported(subs: seq<SubSchema>, t: Name)
    requires FieldsAgree(subs, t)
    ensures Supported(DeclsOf(DefsOf(subs, t)))
  {
    var ds := DeclsOf(DefsOf(subs, t));
    forall a | 0 <= a < |ds| ensures FieldOf(subs, ds[a].i, t, ds[a].def) {
      DeclsAre(subs, t, ds[a]);
    }
  }

  lemma {:induction false} DeclListed(subs: seq<SubSchema>, t: Name, i: nat, fd: FieldDef) returns (a: nat)
    requires FieldOf(subs, i, t, fd)
    ensures a < |DeclsOf(DefsOf(subs, t))| && DeclsOf(DefsOf(subs, t))[a].def == fd
  {
    var ds := DeclsOf(DefsOf(subs, t));
    var y := Decl(i, fd, TheDef(subs, i, t).external || fd.external);
    DeclsAre(subs, t, y);
    a :| a < |ds| && ds[a] == y;
  }

  lemma {:induction false} SupportedAgree(subs: seq<SubSchema>, t: Name)
    requires Supported(DeclsOf(DefsOf(subs, t)))
    ensures FieldsAgree(subs, t)
  {
    forall i: nat, fd | FieldOf(subs, i, t, fd) ensures !fd.unsupported {
      var a := DeclListed(subs, t, i, fd);
    }
    forall i: nat, j: nat, fd, gd | FieldOf(subs, i, t, fd) && FieldOf(subs, j, t, gd) && fd.name == gd.name ensures fd.sig == gd.sig {
      var a := DeclListed(subs, t, i, fd);
      var b := DeclListed(subs, t, j, gd);
    }
  }

  lemma {:induction false} ProvidesAre(subs: seq<SubSchema>, t: Name)
    ensures AllProvide(DefsOf(subs, t), DeclsOf(DefsOf(subs, t))) <==> KeysAvailable(subs, t)
  {
    var defs, ds := DefsOf(subs, t), DeclsOf(DefsOf(subs, t));
    forall s: nat ensures OwnsSome(ds, s) <==> OwnsAny(subs, s, t) {
      OwnsSomeIs(subs, t, s);
    }
    forall s: nat ensures KeyAt(defs, s) == if DefinesType(subs, s, t) then KeyOf(TheDef(subs, s, t)) else None {
      KeyAtIs(subs, t, s);
    }
    if AllProvide(defs, ds) {
      forall p: nat, s: nat | DefinesType(subs, p, t) && OwnsAny(subs, s, t) && s != p
        ensures DefinesType(subs, s, t) && Provides(TheDef(subs, p, t), KeyOf(TheDef(subs, s, t)))
      {
        DefAt(subs, t, p);
        var a :| 0 <= a < |defs| && defs[a] == Def(p, TheDef(subs, p, t));
        assert OwnsSome(ds, s);
      }
    }
    if KeysAvailable(subs, t) {
      forall a, s: nat | 0 <= a < |defs| && OwnsSome(ds, s) && s != defs[a].i ensures Provides(defs[a].d, KeyAt(defs, s)) {
        AtDef(subs, t, a);
      }
    }
  }

  ghost predicate AllOwned(ds: seq<Decl>) {
    forall f :: f in NamesIn(ds) ==> OwnersIn(ds, f) != []
  }

  ghost predicate Owned(subs: seq<SubSchema>, t: Name, f: Name) {
    exists j: nat :: Owns(subs, j, t, f)
  }

  lemma {:induction false} OwnedIs(subs: seq<SubSchema>, t: Name, f: Name)
    ensures OwnersIn(DeclsOf(DefsOf(subs, t)), f) != [] <==> Owned(subs, t, f)
  {
    var os := OwnersIn(DeclsOf(DefsOf(subs, t)), f);
    if os != [] {
      OwnersAre(subs, t, f, os[0]);
    }
    if Owned(subs, t, f) {
      var j: nat :| Owns(subs, j, t, f);
      OwnersAre(subs, t, f, j);
    }
  }

  lemma {:induction false} OwnedAre(subs: seq<SubSchema>, t: Name)
    ensures AllOwned(DeclsOf(DefsOf(subs, t))) <==> forall i: nat, f :: DeclaredIn(subs, i, t, f) ==> Owned(subs, t, f)
  {
    var ds := DeclsOf(DefsOf(subs, t));
    forall f ensures OwnersIn(ds, f) != [] <==> Owned(subs, t, f) {
      OwnedIs(subs, t, f);
    }
    if AllOwned(ds) {
      forall i: nat, f | DeclaredIn(subs, i, t, f) ensures Owned(subs, t, f) {
        NamesAre(subs, t, f);
      }
    } else {
      var f :| f in NamesIn(ds) && OwnersIn(ds, f) == [];
      NamesAre(subs, t, f);
    }
  }

  lemma {:induction false} AcceptedAre(subs: seq<SubSchema>, t: Name)
    ensures KeysAccepted(DefsOf(subs, t)) <==> forall i: nat :: DefinesType(subs, i, t) ==> KeyAccepted(TheDef(subs, i, t))
  {
    var defs := DefsOf(subs, t);
    forall a: nat | a < |defs| ensures DefinesType(subs, defs[a].i, t) && defs[a].d == TheDef(subs, defs[a].i, t) {
      AtDef(subs, t, a);
    }
    if KeysAccepted(defs) {
      forall i: nat | DefinesType(subs, i, t) ensures KeyAccepted(TheDef(subs, i, t)) {
        DefAt(subs, t, i);
      }
    }
  }

  /** What the composer reads off a definition's `@key`: a key exactly when
      it is resolvable, and then the names it lists. */
  lemma {:induction false} KeyRead(d: TypeDef)
    ensures KeyAccepted(d) <==> KeyStated(d)
    ensures KeyStated(d) ==> KeyOf(d) == if Resolvable(d) then Some(Spelled(d)) else None
  {
  }

  lemma {:induction false} KeysRead(subs: seq<SubSchema>, t: Name)
    ensures (forall i: nat :: DefinesType(subs, i, t) ==> KeyAccepted(TheDef(subs, i, t))) <==>
            (forall i: nat :: DefinesType(subs, i, t) ==> KeyStated(TheDef(subs, i, t)))
    ensures (forall i: nat :: DefinesType(subs, i, t) ==> KeyStated(TheDef(subs, i, t))) ==>
              (KeysAvailable(subs, t) <==> KeysAddress(subs, t))
  {
    forall i: nat | DefinesType(subs, i, t)
      ensures KeyAccepted(TheDef(subs, i, t)) <==> KeyStated(TheDef(subs, i, t))
      ensures KeyStated(TheDef(subs, i, t)) ==>
                forall p :: Provides(p, KeyOf(TheDef(subs, i, t))) <==> Addresses(p, TheDef(subs, i, t))
    {
      KeyRead(TheDef(subs, i, t));
    }
  }

  /** The composer accepts a type exactly when it meets the rules. */
  lemma {:induction false} RulesExact(subs: seq<SubSchema>, t: Name)
    ensures GroupOk(DefsOf(subs, t)) <==> TypeRules(subs, t)
  {
    KindsAre(subs, t);
    AcceptedAre(subs, t);
    KeysRead(subs, t);
    FieldsAre(subs, t);
    OwnedAre(subs, t);
    ProvidesAre(subs, t);
    assert EntityOk(DefsOf(subs, t)) <==>
      (KeysAccepted(DefsOf(subs, t)) && Supported(DeclsOf(DefsOf(subs, t)))
       && AllOwned(DeclsOf(DefsOf(subs, t)))
       && AllProvide(DefsOf(subs, t), DeclsOf(DefsOf(subs, t))));
  }

  // ----- exact tables

  ghost predicate Ascending(s: seq<nat>) {
    forall a, b :: 0 <= a < b < |s| ==> s[a] < s[b]
  }

  /** Owners within one definition: at most the definition's subgraph, once. */
  lemma {:induction false} OwnersOfDef(x: Def, f: Name, k: nat)
    requires UniqueFields(x.d.fields) && k <= |x.d.fields|
    ensures OwnersIn(DeclsOfDef(x)[..k], f) == [] || OwnersIn(DeclsOfDef(x)[..k], f) == [x.i]
    ensures (forall j: nat :: 0 <= j < k ==> x.d.fields[j].name != f) ==> OwnersIn(DeclsOfDef(x)[..k], f) == []
  {
    var ds := DeclsOfDef(x);
    if k > 0 {
      assert ds[..k][..k - 1] == ds[..k - 1];
      OwnersOfDef(x, f, k - 1);
    }
  }

  lemma {:induction false} OwnersAppend(ds: seq<Decl>, es: seq<Decl>, f: Name)
    ensures OwnersIn(ds + es, f) == OwnersIn(ds, f) + OwnersIn(es, f)
  {
    if es == [] {
      assert ds + es == ds;
    } else {
      var n := |es| - 1;
      OwnersAppend(ds, es[..n], f);
      assert (ds + es)[..|ds| + n] == ds + es[..n];
    }
  }

  lemma {:induction false} OwnersAscend(subs: seq<SubSchema>, t: Name, f: Name)
    requires forall i :: 0 <= i < |subs| ==> UniqueNames(subs[i])
    ensures Ascending(OwnersIn(DeclsOf(DefsOf(subs, t)), f))
    ensures forall i :: i in OwnersIn(DeclsOf(DefsOf(subs, t)), f) ==> i < |subs|
  {
    if subs == [] {
      assert DefsOf(subs, t) == [] && DeclsOf([]) == [];
    } else {
      var n := |subs| - 1;
      OwnersAscend(subs[..n], t, f);
      var os := OwnersIn(DeclsOf(DefsOf(subs[..n], t)), f);
      LastOwner(subs, t, f);
      AscendSnoc(os, n);
    }
  }

  lemma AscendSnoc(os: seq<nat>, n: nat)
    requires Ascending(os) && forall i :: i in os ==> i < n
    ensures Ascending(os + [n]) && forall i :: i in os + [n] ==> i < n + 1
  {
    forall a, b | 0 <= a < b < |os + [n]| ensures (os + [n])[a] < (os + [n])[b] {
      assert (os + [n])[a] == os[a] && os[a] in os;
    }
  }

  lemma {:induction false} LastOwner(subs: seq<SubSchema>, t: Name, f: Name)
    requires subs != [] && UniqueNames(subs[|subs| - 1])
    ensures var n := |subs| - 1;
            var os := OwnersIn(DeclsOf(DefsOf(subs[..n], t)), f);
            OwnersIn(DeclsOf(DefsOf(subs, t)), f) == os || OwnersIn(DeclsOf(DefsOf(subs, t)), f) == os + [n]
  {
    var n := |subs| - 1;
    var defs := DefsOf(subs, t);
    if DefOf(subs[n], t).Some? {
      var x := Def(n, DefOf(subs[n], t).value);
      assert defs[..|defs| - 1] == DefsOf(subs[..n], t) && defs[|defs| - 1] == x;
      OwnersAppend(DeclsOf(DefsOf(subs[..n], t)), DeclsOfDef(x), f);
      LookupUnique(subs[n].types, t);
      OwnersOfDef(x, f, |x.d.fields|);
      assert DeclsOfDef(x)[..|x.d.fields|] == DeclsOfDef(x);
    } else {
      assert defs == DefsOf(subs[..n], t);
    }
  }

  /** Ownership is exact: an entity field's owners are, in ascending order,
      precisely the subgraphs declaring it without `@external`; there is at
      least one; and all declarations agree on the signature. */
  lemma {:induction false} OwnersExact(names: seq<string>, subs: seq<SubSchema>, e: Engine, t: Name, f: Name)
    requires forall i: nat :: 0 <= i < |subs| ==> UniqueNames(subs[i])
    requires Composable(names, subs) && Tables(e, subs) && t in e.keys
    ensures (t, f) in e.owners <==> exists i: nat :: DeclaredIn(subs, i, t, f)
    ensures (t, f) in e.owners ==> e.owners[(t, f)] != [] && Ascending(e.owners[(t, f)])
    ensures (t, f) in e.owners ==> forall i: nat :: i in e.owners[(t, f)] <==> Owns(subs, i, t, f)
    ensures forall i: nat, j: nat, fd, gd :: FieldOf(subs, i, t, fd) && FieldOf(subs, j, t, gd) && fd.name == gd.name ==> fd.sig == gd.sig
  {
    assert IsEntity(DefsOf(subs, t)) && GroupOk(DefsOf(subs, t));
    KindsAre(subs, t);
    RulesExact(subs, t);
    EntityNotRoot(subs, t);
    NamesAre(subs, t, f);
    OwnersAscend(subs, t, f);
    forall i ensures i in OwnersIn(DeclsOf(DefsOf(subs, t)), f) <==> Owns(subs, i, t, f) {
      OwnersAre(subs, t, f, i);
    }
    if (t, f) in e.owners {
      assert f in NamesIn(DeclsOf(DefsOf(subs, t)));
    }
  }

  /** A declared entity field has a first owner, which declares it. */
  lemma {:induction false} FirstOwner(names: seq<string>, subs: seq<SubSchema>, e: Engine, i: nat, t: Name, f: Name)
    requires forall k :: 0 <= k < |subs| ==> UniqueNames(subs[k])
    requires Composable(names, subs) && Tables(e, subs) && t in e.keys && DeclaredIn(subs, i, t, f)
    ensures (t, f) in e.owners && e.owners[(t, f)] != []
    ensures Owns(subs, e.owners[(t, f)][0], t, f) && DeclaredIn(subs, e.owners[(t, f)][0], t, f)
  {
    OwnersExact(names, subs, e, t, f);
    assert e.owners[(t, f)][0] in e.owners[(t, f)];
  }

  lemma {:induction false} EntityNotRoot(subs: seq<SubSchema>, t: Name)
    requires DefsOf(subs, t) != []
    ensures t !in ROOT_TYPES
  {
    TypesNotRoots(subs, t);
  }

  /** Root fields have exactly one owner, the subgraph declaring them. */
  lemma {:induction false} RootsExact(names: seq<string>, subs: seq<SubSchema>, e: Engine, root: Name, f: Name)
    requires Composable(names, subs) && Tables(e, subs) && root in ROOT_TYPES
    ensures (root, f) in e.owners <==> exists i: nat :: 0 <= i < |subs| && HasRoot(subs[i], root, f)
    ensures (root, f) in e.owners ==>
              |e.owners[(root, f)]| == 1 && forall i: nat :: i < |subs| ==> (HasRoot(subs[i], root, f) <==> e.owners[(root, f)] == [i])
  {
    if root in e.keys {
      assert IsEntity(DefsOf(subs, root));
      EntityNotRoot(subs, root);
    }
    if (root, f) in e.owners {
      var i :| 0 <= i < |subs| && HasRoot(subs[i], root, f);
      assert e.owners[(root, f)] == [i];
      forall j: nat | j < |subs| ensures HasRoot(subs[j], root, f) <==> e.owners[(root, f)] == [j] {
      }
    }
  }

  /** The key table, over the directives: a subgraph has a key exactly when
      it defines the entity with a resolvable `@key`, and then the key is the
      list of names the directive spells, all of them its own fields. */
  lemma {:induction false} KeysExact(names: seq<string>, subs: seq<SubSchema>, e: Engine, t: Name, s: nat)
    requires Composable(names, subs) && Tables(e, subs) && t in e.keys && s < |subs|
    ensures |e.keys[t]| == |subs|
    ensures e.keys[t][s].Some? <==> DefinesType(subs, s, t) && Resolvable(TheDef(subs, s, t))
    ensures e.keys[t][s].Some? ==>
              && e.keys[t][s].value == Spelled(TheDef(subs, s, t)) != []
              && forall k :: k in e.keys[t][s].value ==> !Nested(k) && DeclaredIn(subs, s, t, k)
  {
    KeyTableIs(subs, e, t, s);
    RulesExact(subs, t);
    KindsAre(subs, t);
    assert GroupOk(DefsOf(subs, t)) && IsEntity(DefsOf(subs, t));
    if DefinesType(subs, s, t) {
      assert KeyStated(TheDef(subs, s, t));
      KeyRead(TheDef(subs, s, t));
    }
  }

  /** Composition is refused when an owner that some other definition of the
      entity needs resolves no entity, or by a field that one lacks. */
  lemma {:induction false} OwnerMustResolve(names: seq<string>, subs: seq<SubSchema>, t: Name, p: nat, s: nat, f: Name)
    requires Entity(subs, t) && DefinesType(subs, p, t) && Owns(subs, s, t, f) && s != p
    requires !Addresses(TheDef(subs, p, t), TheDef(subs, s, t))
    ensures !Composable(names, subs)
  {
    RulesExact(subs, t);
    assert OwnsAny(subs, s, t);
    assert !GroupOk(DefsOf(subs, t));
  }

  lemma {:induction false} KeyTableIs(subs: seq<SubSchema>, e: Engine, t: Name, s: nat)
    requires Tables(e, subs) && t in e.keys && s < |subs|
    ensures |e.keys[t]| == |subs|
    ensures e.keys[t][s] == if DefinesType(subs, s, t) then KeyOf(TheDef(subs, s, t)) else None
  {
    KeyAtIs(subs, t, s);
  }

  // ----- order independence

  /** `b` lists the members of `a` in another order: `p` and `q` are inverse
      rearrangements of the positions. */
  ghost predicate Matching<T(!new)>(a: seq<T>, b: seq<T>, p: seq<nat>, q: seq<nat>) {
    && |a| == |b| == |p| == |q|
    && (forall i: nat :: i < |b| ==> Moves(a, b, p, q, i))
    && (forall k: nat :: k < |a| ==> Moves(b, a, q, p, k))
  }

  /** Position `i` of `b` is position `p[i]` of `a`. */
  ghost predicate Moves<T(!new)>(a: seq<T>, b: seq<T>, p: seq<nat>, q: seq<nat>, i: nat) {
    i < |b| && i < |p| && p[i] < |a| && b[i] == a[p[i]] && p[i] < |q| && q[p[i]] == i
  }

  lemma {:induction false} OwnsMoved(a: seq<SubSchema>, b: seq<SubSchema>, k: nat, i: nat, t: Name, f: Name)
    requires k < |a| && i < |b| && b[i] == a[k]
    ensures Owns(a, k, t, f) <==> Owns(b, i, t, f)
  {
    if Owns(a, k, t, f) {
      var fd :| FieldOf(a, k, t, fd) && fd.name == f && !fd.external && !TheDef(a, k, t).external;
      assert FieldOf(b, i, t, fd);
    }
    if Owns(b, i, t, f) {
      var fd :| FieldOf(b, i, t, fd) && fd.name == f && !fd.external && !TheDef(b, i, t).external;
      assert FieldOf(a, k, t, fd);
    }
  }

  /** The rules look at subgraphs one by one or in pairs, never at order. */
  lemma {:induction false} RulesMove(a: seq<SubSchema>, b: seq<SubSchema>, p: seq<nat>, q: seq<nat>, t: Name)
    requires Matching(a, b, p, q) && TypeRules(a, t)
    ensures TypeRules(b, t) && (Entity(a, t) <==> Entity(b, t))
  {
    DefinedMove(a, b, p, q, t);
    if Entity(a, t) {
      assert EntityRules(a, t);
      FieldsMove(a, b, p, q, t);
      OwnedMove(a, b, p, q, t);
      KeysMove(a, b, p, q, t);
    }
  }

  lemma {:induction false} DefinedMove(a: seq<SubSchema>, b: seq<SubSchema>, p: seq<nat>, q: seq<nat>, t: Name)
    requires Matching(a, b, p, q)
    ensures Entity(a, t) <==> Entity(b, t)
    ensures SameKinds(a, t) ==> SameKinds(b, t)
    ensures SameShape(a, t) ==> SameShape(b, t)
    ensures (forall i: nat :: DefinesType(a, i, t) ==> KeyStated(TheDef(a, i, t))) ==>
            (forall i: nat :: DefinesType(b, i, t) ==> KeyStated(TheDef(b, i, t)))
  {
    forall i: nat | DefinesType(b, i, t) ensures DefinesType(a, p[i], t) && TheDef(b, i, t) == TheDef(a, p[i], t) {
      assert Moves(a, b, p, q, i);
    }
    if Entity(a, t) {
      var k: nat :| DefinesType(a, k, t) && TheDef(a, k, t).kind.ObjectKind? && TheDef(a, k, t).key.Some?;
      assert Moves(b, a, q, p, k);
      assert DefinesType(b, q[k], t);
    }
  }

  lemma {:induction false} FieldsMove(a: seq<SubSchema>, b: seq<SubSchema>, p: seq<nat>, q: seq<nat>, t: Name)
    requires Matching(a, b, p, q) && FieldsAgree(a, t)
    ensures FieldsAgree(b, t)
  {
    forall i: nat, fd | FieldOf(b, i, t, fd) ensures FieldOf(a, p[i], t, fd) {
      assert Moves(a, b, p, q, i);
    }
  }

  lemma {:induction false} OwnedMove(a: seq<SubSchema>, b: seq<SubSchema>, p: seq<nat>, q: seq<nat>, t: Name)
    requires Matching(a, b, p, q) && (forall i: nat, f :: DeclaredIn(a, i, t, f) ==> Owned(a, t, f))
    ensures forall i: nat, f :: DeclaredIn(b, i, t, f) ==> Owned(b, t, f)
  {
    forall i: nat, f | DeclaredIn(b, i, t, f) ensures Owned(b, t, f) {
      assert Moves(a, b, p, q, i);
      assert DeclaredIn(a, p[i], t, f);
      var k: nat :| Owns(a, k, t, f);
      assert Moves(b, a, q, p, k);
      OwnsMoved(a, b, k, q[k], t, f);
    }
  }

  lemma {:induction false} KeysMove(a: seq<SubSchema>, b: seq<SubSchema>, p: seq<nat>, q: seq<nat>, t: Name)
    requires Matching(a, b, p, q) && KeysAddress(a, t)
    ensures KeysAddress(b, t)
  {
    forall i: nat, s: nat | DefinesType(b, i, t) && OwnsAny(b, s, t) && s != i
      ensures DefinesType(b, s, t) && Addresses(TheDef(b, i, t), TheDef(b, s, t))
    {
      var f :| Owns(b, s, t, f);
      assert Moves(a, b, p, q, s) && Moves(a, b, p, q, i);
      OwnsMoved(a, b, p[s], s, t, f);
      assert DefinesType(a, p[i], t) && OwnsAny(a, p[s], t) && p[s] != p[i];
    }
  }

  /** Whether a supergraph composes does not depend on subgraph order. */
  lemma {:induction false} ComposableMoves(na: seq<string>, nb: seq<string>, a: seq<SubSchema>, b: seq<SubSchema>, p: seq<nat>, q: seq<nat>)
    requires Matching(a, b, p, q) && Matching(na, nb, p, q) && Composable(na, a)
    ensures Composable(nb, b)
  {
    forall i: nat, j: nat | 0 <= i < j < |nb| ensures nb[i] != nb[j] {
      assert Moves(na, nb, p, q, i) && Moves(na, nb, p, q, j);
      assert p[i] < p[j] || p[j] < p[i];
    }
    forall i: nat, j: nat, root, f | 0 <= i < j < |b| && root in ROOT_TYPES ensures !(HasRoot(b[i], root, f) && HasRoot(b[j], root, f)) {
      assert Moves(a, b, p, q, i) && Moves(a, b, p, q, j);
      assert p[i] < p[j] || p[j] < p[i];
    }
    forall i: nat | i < |b| ensures RootsNamed(b[i]) {
      assert Moves(a, b, p, q, i);
    }
    var k, f :| 0 <= k < |a| && HasRoot(a[k], "Query", f);
    assert Moves(b, a, q, p, k);
    assert HasRoot(b[q[k]], "Query", f);
    forall t ensures GroupOk(DefsOf(b, t)) {
      assert GroupOk(DefsOf(a, t));
      RulesExact(a, t);
      RulesMove(a, b, p, q, t);
      RulesExact(b, t);
    }
  }

  /** Rearranging the subgraphs renames them in the tables and changes
      nothing else: same success, same entities, same keys per subgraph, and
      each field owned by the same subgraphs. */
  lemma {:induction false} OrderIndependent(na: seq<string>, nb: seq<string>, a: seq<SubSchema>, b: seq<SubSchema>,
                                            p: seq<nat>, q: seq<nat>, ea: Engine, eb: Engine)
    requires forall i: nat :: 0 <= i < |a| ==> UniqueNames(a[i])
    requires Matching(a, b, p, q) && Matching(na, nb, p, q)
    requires Composable(na, a) ==> Tables(ea, a)
    requires Composable(nb, b) ==> Tables(eb, b)
    ensures Composable(na, a) <==> Composable(nb, b)
    ensures Composable(na, a) ==> ea.keys.Keys == eb.keys.Keys && ea.owners.Keys == eb.owners.Keys
    ensures Composable(na, a) ==> forall t, i: nat :: t in eb.keys && i < |b| ==> KeySame(ea, eb, p, t, i)
    ensures Composable(na, a) ==> forall t, f, i: nat :: (t, f) in eb.owners && i < |b| ==> OwnerSame(ea, eb, p, t, f, i)
  {
    if Composable(na, a) {
      ComposableMoves(na, nb, a, b, p, q);
      TablesMove(na, nb, a, b, p, q, ea, eb);
    }
    if Composable(nb, b) {
      ComposableMoves(nb, na, b, a, q, p);
    }
  }

  ghost predicate KeySame(ea: Engine, eb: Engine, p: seq<nat>, t: Name, i: nat) {
    && t in ea.keys && t in eb.keys && i < |p| && i < |eb.keys[t]| && p[i] < |ea.keys[t]|
    && eb.keys[t][i] == ea.keys[t][p[i]]
  }

  ghost predicate OwnerSame(ea: Engine, eb: Engine, p: seq<nat>, t: Name, f: Name, i: nat) {
    && (t, f) in ea.owners && (t, f) in eb.owners && i < |p|
    && (i in eb.owners[(t, f)] <==> p[i] in ea.owners[(t, f)])
  }

  /** Who may own field `f` of `t`, root type or entity. */
  ghost predicate OwnerOf(subs: seq<SubSchema>, i: nat, t: Name, f: Name) {
    if t in ROOT_TYPES then i < |subs| && HasRoot(subs[i], t, f) else Owns(subs, i, t, f)
  }

  ghost predicate AnyOwner(subs: seq<SubSchema>, t: Name, f: Name) {
    exists i: nat :: OwnerOf(subs, i, t, f)
  }

  ghost predicate Recorded(subs: seq<SubSchema>, e: Engine, t: Name, f: Name) {
    && ((t, f) in e.owners <==> (t in ROOT_TYPES || t in e.keys) && AnyOwner(subs, t, f))
    && ((t, f) in e.owners ==> forall i: nat :: i in e.owners[(t, f)] <==> OwnerOf(subs, i, t, f))
  }

  lemma {:induction false} AllRecorded(names: seq<string>, subs: seq<SubSchema>, e: Engine, t: Name, f: Name)
    requires forall i :: 0 <= i < |subs| ==> UniqueNames(subs[i])
    requires Composable(names, subs) && Tables(e, subs)
    ensures Recorded(subs, e, t, f)
  {
    if t in e.keys {
      EntityRecorded(names, subs, e, t, f);
    } else if t in ROOT_TYPES {
      RootsExact(names, subs, e, t, f);
      if (t, f) in e.owners {
        var i :| 0 <= i < |subs| && HasRoot(subs[i], t, f);
        assert OwnerOf(subs, i, t, f);
      }
    }
  }

  lemma {:induction false} EntityRecorded(names: seq<string>, subs: seq<SubSchema>, e: Engine, t: Name, f: Name)
    requires forall i :: 0 <= i < |subs| ==> UniqueNames(subs[i])
    requires Composable(names, subs) && Tables(e, subs) && t in e.keys
    ensures Recorded(subs, e, t, f)
  {
    OwnersExact(names, subs, e, t, f);
    EntityNotRoot(subs, t);
    if (t, f) in e.owners {
      assert OwnerOf(subs, e.owners[(t, f)][0], t, f);
    } else if AnyOwner(subs, t, f) {
      var i: nat :| OwnerOf(subs, i, t, f);
      assert DeclaredIn(subs, i, t, f);
    }
  }

  lemma {:induction false} OwnerMoves(a: seq<SubSchema>, b: seq<SubSchema>, p: seq<nat>, q: seq<nat>, t: Name, f: Name, i: nat)
    requires Matching(a, b, p, q) && i < |b|
    ensures Moves(a, b, p, q, i) && (OwnerOf(b, i, t, f) <==> OwnerOf(a, p[i], t, f))
  {
    assert Moves(a, b, p, q, i);
    OwnsMoved(a, b, p[i], i, t, f);
  }

  lemma {:induction false} AnyOwnerMoves(a: seq<SubSchema>, b: seq<SubSchema>, p: seq<nat>, q: seq<nat>, t: Name, f: Name)
    requires Matching(a, b, p, q) && AnyOwner(a, t, f)
    ensures AnyOwner(b, t, f)
  {
    var i: nat :| OwnerOf(a, i, t, f);
    OwnerMoves(b, a, q, p, t, f, i);
  }

  lemma {:induction false} SameEntities(a: seq<SubSchema>, b: seq<SubSchema>, p: seq<nat>, q: seq<nat>, ea: Engine, eb: Engine)
    requires Matching(a, b, p, q) && Tables(ea, a) && Tables(eb, b)
    ensures ea.keys.Keys == eb.keys.Keys
  {
    forall t ensures t in ea.keys <==> t in eb.keys {
      KindsAre(a, t);
      KindsAre(b, t);
      DefinedMove(a, b, p, q, t);
    }
  }

  lemma {:induction false} SameKeys(a: seq<SubSchema>, b: seq<SubSchema>, p: seq<nat>, q: seq<nat>, ea: Engine, eb: Engine)
    requires Matching(a, b, p, q) && Tables(ea, a) && Tables(eb, b) && ea.keys.Keys == eb.keys.Keys
    ensures forall t, i: nat :: t in eb.keys && i < |b| ==> KeySame(ea, eb, p, t, i)
  {
    forall t, i: nat | t in eb.keys && i < |b| ensures KeySame(ea, eb, p, t, i) {
      assert Moves(a, b, p, q, i);
      KeyTableIs(a, ea, t, p[i]);
      KeyTableIs(b, eb, t, i);
    }
  }

  lemma {:induction false} BothRecorded(na: seq<string>, nb: seq<string>, a: seq<SubSchema>, b: seq<SubSchema>,
                                        p: seq<nat>, q: seq<nat>, ea: Engine, eb: Engine, t: Name, f: Name)
    requires forall i :: 0 <= i < |a| ==> UniqueNames(a[i])
    requires Matching(a, b, p, q)
    requires Composable(na, a) && Tables(ea, a) && Composable(nb, b) && Tables(eb, b)
    ensures Recorded(a, ea, t, f) && Recorded(b, eb, t, f)
  {
    forall i | 0 <= i < |b| ensures UniqueNames(b[i]) {
      assert Moves(a, b, p, q, i);
    }
    AllRecorded(na, a, ea, t, f);
    AllRecorded(nb, b, eb, t, f);
  }

  lemma {:induction false} TablesMove(na: seq<string>, nb: seq<string>, a: seq<SubSchema>, b: seq<SubSchema>,
                                      p: seq<nat>, q: seq<nat>, ea: Engine, eb: Engine)
    requires forall i :: 0 <= i < |a| ==> UniqueNames(a[i])
    requires Matching(a, b, p, q)
    requires Composable(na, a) && Tables(ea, a) && Composable(nb, b) && Tables(eb, b)
    ensures ea.keys.Keys == eb.keys.Keys && ea.owners.Keys == eb.owners.Keys
    ensures forall t, i: nat :: t in eb.keys && i < |b| ==> KeySame(ea, eb, p, t, i)
    ensures forall t, f, i: nat :: (t, f) in eb.owners && i < |b| ==> OwnerSame(ea, eb, p, t, f, i)
  {
    SameEntities(a, b, p, q, ea, eb);
    SameKeys(a, b, p, q, ea, eb);
    forall t, f ensures Recorded(a, ea, t, f) && Recorded(b, eb, t, f) {
      BothRecorded(na, nb, a, b, p, q, ea, eb, t, f);
    }
    OwnersMove(a, b, p, q, ea, eb);
  }

  lemma {:induction false} OwnersMove(a: seq<SubSchema>, b: seq<SubSchema>, p: seq<nat>, q: seq<nat>, ea: Engine, eb: Engine)
    requires Matching(a, b, p, q) && ea.keys.Keys == eb.keys.Keys
    requires forall t, f :: Recorded(a, ea, t, f) && Recorded(b, eb, t, f)
    ensures ea.owners.Keys == eb.owners.Keys
    ensures forall t, f, i: nat :: (t, f) in eb.owners && i < |b| ==> OwnerSame(ea, eb, p, t, f, i)
  {
    forall t, f ensures (t, f) in ea.owners <==> (t, f) in eb.owners {
      OwnedSame(a, b, p, q, ea, eb, t, f);
    }
    forall x ensures x in ea.owners.Keys <==> x in eb.owners.Keys {
      assert x == (x.0, x.1);
    }
    forall t, f, i: nat | (t, f) in eb.owners && i < |b| ensures OwnerSame(ea, eb, p, t, f, i) {
      OwnerMoves(a, b, p, q, t, f, i);
      assert Recorded(a, ea, t, f) && Recorded(b, eb, t, f);
    }
  }

  lemma {:induction false} OwnedSame(a: seq<SubSchema>, b: seq<SubSchema>, p: seq<nat>, q: seq<nat>, ea: Engine, eb: Engine, t: Name, f: Name)
    requires Matching(a, b, p, q) && ea.keys.Keys == eb.keys.Keys
    requires Recorded(a, ea, t, f) && Recorded(b, eb, t, f)
    ensures (t, f) in ea.owners <==> (t, f) in eb.owners
  {
    if AnyOwner(a, t, f) {
      AnyOwnerMoves(a, b, p, q, t, f);
    }
    if AnyOwner(b, t, f) {
      AnyOwnerMoves(b, a, q, p, t, f);
    }
    assert t in ea.keys.Keys <==> t in eb.keys.Keys;
  }
}
