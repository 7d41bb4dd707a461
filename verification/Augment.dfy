/** Augmenting a subgraph schema with the federation service machinery:
    missing definitions are added, present ones kept. */
module Augment {
  import opened Basics

  datatype Def =
    | Scalar
    | Object(keyed: bool, fields: map<Name, string>)
    | Union(members: set<Name>)
    | Other(text: string)

  /** A directive definition: the federation specification's own, or the
      text a schema gives. */
  datatype Directive = Standard | Custom(text: string)

  /** A parsed subgraph schema: directive definitions, types, query root. */
  datatype Schema = Schema(directives: map<Name, Directive>, types: map<Name, Def>, query: Option<Name>)

  /** The definitions the federation specification reserves. */
  const DIRECTIVES: seq<(Name, Directive)> := [
    ("key", Standard), ("external", Standard), ("requires", Standard), ("provides", Standard), ("shareable", Standard),
    ("extends", Standard), ("override", Standard), ("inaccessible", Standard), ("tag", Standard), ("link", Standard)]

  const TYPES: seq<(Name, Def)> := [
    ("_FieldSet", Scalar), ("_Any", Scalar), ("_Service", Object(false, map["sdl" := "String"])),
    ("link__Import", Scalar), ("link__Purpose", Other("enum"))]

  const ENTITIES := "(representations: [_Any!]!): [_Entity]!"
  const SERVICE := "_Service!"

  function Entities(types: map<Name, Def>): set<Name> {
    set t | t in types && types[t].Object? && types[t].keyed
  }

  /** `more` without what `m` already has. */
  function Filled<V>(m: map<Name, V>, more: seq<(Name, V)>): map<Name, V> {
    if more == [] then m
    else
      var before := Filled(m, more[..|more| - 1]);
      var (k, v) := more[|more| - 1];
      if k in before then before else before[k := v]
  }

  /** Adds the missing definitions one by one. */
  method Fill<V>(m: map<Name, V>, more: seq<(Name, V)>) returns (r: map<Name, V>)
    ensures r == Filled(m, more)
  {
    r := m;
    for i := 0 to |more|
      invariant r == Filled(m, more[..i])
    {
      assert more[..i + 1][..i] == more[..i];
      if more[i].0 !in r {
        r := r[more[i].0 := more[i].1];
      }
    }
    assert more[..|more|] == more;
  }

  function RootFields(fields: map<Name, string>, entities: bool): map<Name, string> {
    Filled(fields, (if entities then [("_entities", ENTITIES)] else []) + [("_service", SERVICE)])
  }

  /** What augmentation makes of a schema; none without an object query root. */
  function Augmented(s: Schema): Option<Schema> {
    if s.query.None? || s.query.value !in s.types || !s.types[s.query.value].Object? then None
    else
      var root := s.types[s.query.value];
      var es := Entities(s.types);
      var types := Filled(s.types, TYPES);
      var unioned := if es != {} && "_Entity" !in s.types then types["_Entity" := Union(es)] else types;
      Some(Schema(Filled(s.directives, DIRECTIVES),
                  unioned[s.query.value := root.(fields := RootFields(root.fields, es != {}))], s.query))
  }

  method AugmentSchema(s: Schema) returns (r: Option<Schema>)
    ensures r == Augmented(s)
  {
    if s.query.None? || s.query.value !in s.types || !s.types[s.query.value].Object? {
      return None;
    }
    var q := s.query.value;
    var root, es := s.types[q], Entities(s.types);
    var directives := Fill(s.directives, DIRECTIVES);
    var types := Fill(s.types, TYPES);
    if es != {} && "_Entity" !in s.types {
      types := types["_Entity" := Union(es)];
    }
    var fields := Fill(root.fields, (if es != {} then [("_entities", ENTITIES)] else []) + [("_service", SERVICE)]);
    r := Some(Schema(directives, types[q := root.(fields := fields)], s.query));
  }

  lemma {:induction false} FilledKeeps<V>(m: map<Name, V>, more: seq<(Name, V)>)
    ensures forall k :: k in m ==> k in Filled(m, more) && Filled(m, more)[k] == m[k]
    ensures forall k :: k in Filled(m, more) <==> k in m || exists i :: 0 <= i < |more| && more[i].0 == k
    ensures forall k :: k in Filled(m, more) && k !in m ==> exists i :: 0 <= i < |more| && more[i] == (k, Filled(m, more)[k])
  {
    if more != [] {
      var n := |more| - 1;
      FilledKeeps(m, more[..n]);
      assert forall i :: 0 <= i < n ==> more[..n][i] == more[i];
      forall k ensures k in Filled(m, more) <==> k in m || exists i :: 0 <= i < |more| && more[i].0 == k {
        if k in Filled(m, more[..n]) && k !in m {
          var i :| 0 <= i < n && more[..n][i].0 == k;
          assert more[i].0 == k;
        }
      }
      forall k | k in Filled(m, more) && k !in m ensures exists i :: 0 <= i < |more| && more[i] == (k, Filled(m, more)[k]) {
        if k in Filled(m, more[..n]) {
          var i :| 0 <= i < n && more[..n][i] == (k, Filled(m, more[..n])[k]);
          assert more[i] == (k, Filled(m, more)[k]);
        } else {
          assert more[n] == (k, Filled(m, more)[k]);
        }
      }
    }
  }

  lemma {:induction false} FilledAlready<V>(m: map<Name, V>, more: seq<(Name, V)>)
    requires forall i :: 0 <= i < |more| ==> more[i].0 in m
    ensures Filled(m, more) == m
  {
    if more != [] {
      assert forall i :: 0 <= i < |more| - 1 ==> more[..|more| - 1][i] == more[i];
      FilledAlready(m, more[..|more| - 1]);
    }
  }

  /** None of the added types is an entity. */
  lemma {:induction false} NoNewEntities(types: map<Name, Def>)
    ensures Entities(Filled(types, TYPES)) == Entities(types)
  {
    FilledKeeps(types, TYPES);
    forall t | t in Filled(types, TYPES) && t !in types ensures !(Filled(types, TYPES)[t].Object? && Filled(types, TYPES)[t].keyed) {
      var i :| 0 <= i < |TYPES| && TYPES[i] == (t, Filled(types, TYPES)[t]);
    }
  }

  /** Existing definitions survive: only the query root gains fields, and it
      keeps those it had. The entity union lists exactly the keyed types. */
  lemma {:induction false} AugmentKeeps(s: Schema)
    requires Augmented(s).Some?
    ensures var a := Augmented(s).value;
            && (forall d :: d in s.directives ==> d in a.directives && a.directives[d] == s.directives[d])
            && (forall t :: t in s.types && Some(t) != s.query ==> t in a.types && a.types[t] == s.types[t])
            && (forall f :: f in s.types[s.query.value].fields ==>
                  a.types[s.query.value].Object? && f in a.types[s.query.value].fields
                  && a.types[s.query.value].fields[f] == s.types[s.query.value].fields[f])
            && ("_Entity" !in s.types && Entities(s.types) != {} ==> "_Entity" in a.types && a.types["_Entity"] == Union(Entities(s.types)))
            && Entities(a.types) == Entities(s.types)
  {
    var root := s.types[s.query.value];
    FilledKeeps(s.directives, DIRECTIVES);
    FilledKeeps(s.types, TYPES);
    FilledKeeps(root.fields, (if Entities(s.types) != {} then [("_entities", ENTITIES)] else []) + [("_service", SERVICE)]);
    NoNewEntities(s.types);
    SameEntities(s);
  }

  lemma {:induction false} SameEntities(s: Schema)
    requires Augmented(s).Some?
    ensures Entities(Augmented(s).value.types) == Entities(s.types)
  {
    var a := Augmented(s).value;
    FilledKeeps(s.types, TYPES);
    NoNewEntities(s.types);
    forall t ensures t in Entities(a.types) <==> t in Entities(s.types) {
      assert t in Entities(Filled(s.types, TYPES)) <==> t in Entities(s.types);
    }
  }

  lemma {:induction false} FilledHas<V>(m: map<Name, V>, more: seq<(Name, V)>)
    ensures forall i :: 0 <= i < |more| ==> more[i].0 in Filled(m, more)
  {
    FilledKeeps(m, more);
  }

  lemma {:induction false} TypesThere(s: Schema, more: seq<(Name, Def)>)
    requires Augmented(s).Some? && more == TYPES
    ensures forall i :: 0 <= i < |more| ==> more[i].0 in Augmented(s).value.types
  {
    FilledHas(s.types, more);
  }

  predicate OneOf<V>(more: seq<(Name, V)>, k: Name) {
    exists i :: 0 <= i < |more| && more[i].0 == k
  }

  /** Exactly what augmentation adds: the reserved directives and types that
      are missing, the entity union when a type has a key, `_service` on the
      query root, and `_entities` there when a type has a key. */
  lemma {:induction false} AugmentAdds(s: Schema)
    requires Augmented(s).Some?
    ensures var a := Augmented(s).value;
            var keyed := exists t :: t in s.types && s.types[t].Object? && s.types[t].keyed;
            && a.query == s.query
            && (forall d :: d in a.directives <==> d in s.directives || OneOf(DIRECTIVES, d))
            && (forall t :: t in a.types <==> t in s.types || OneOf(TYPES, t) || (t == "_Entity" && keyed))
            && a.types[s.query.value].Object?
            && (forall f :: f in a.types[s.query.value].fields <==>
                  f in s.types[s.query.value].fields || f == "_service" || (f == "_entities" && keyed))
            && ("_service" !in s.types[s.query.value].fields ==> a.types[s.query.value].fields["_service"] == SERVICE)
            && (keyed && "_entities" !in s.types[s.query.value].fields ==> a.types[s.query.value].fields["_entities"] == ENTITIES)
  {
    var root := s.types[s.query.value];
    FilledKeeps(s.directives, DIRECTIVES);
    FilledKeeps(s.types, TYPES);
    assert (exists t :: t in s.types && s.types[t].Object? && s.types[t].keyed) <==> Entities(s.types) != {} by {
      if t :| t in s.types && s.types[t].Object? && s.types[t].keyed {
        assert t in Entities(s.types);
      }
    }
    RootAdds(root.fields, Entities(s.types) != {});
  }

  lemma {:induction false} RootAdds(fields: map<Name, string>, entities: bool)
    ensures var r := RootFields(fields, entities);
            && (forall f :: f in r <==> f in fields || f == "_service" || (f == "_entities" && entities))
            && ("_service" !in fields ==> r["_service"] == SERVICE)
            && (entities && "_entities" !in fields ==> r["_entities"] == ENTITIES)
  {
    assert "_entities"[1] == 'e' && "_service"[1] == 's';
    if entities {
      FilledPair(fields, "_entities", ENTITIES, "_service", SERVICE);
    } else {
      FilledOne(fields, "_service", SERVICE);
      assert [] + [("_service", SERVICE)] == [("_service", SERVICE)];
    }
  }

  lemma {:induction false} FilledOne<V>(m: map<Name, V>, k: Name, v: V)
    ensures Filled(m, [(k, v)]) == if k in m then m else m[k := v]
  {
    assert [(k, v)][..0] == [];
  }

  lemma {:induction false} FilledPair<V>(m: map<Name, V>, k: Name, v: V, h: Name, w: V)
    requires k != h
    ensures var r := Filled(m, [(k, v)] + [(h, w)]);
            && r.Keys == m.Keys + {k, h}
            && (k !in m ==> r[k] == v) && (h !in m ==> r[h] == w)
  {
    FilledOne(m, k, v);
    assert ([(k, v)] + [(h, w)])[..1] == [(k, v)];
  }

  /** Augmenting twice is augmenting once. */
  lemma {:induction false} AugmentIdempotent(s: Schema)
    requires Augmented(s).Some?
    ensures Augmented(Augmented(s).value) == Augmented(s)
  {
    var a := Augmented(s).value;
    var q := s.query.value;
    var more := (if Entities(s.types) != {} then [("_entities", ENTITIES)] else []) + [("_service", SERVICE)];
    SameEntities(s);
    FilledHas(s.directives, DIRECTIVES);
    FilledAlready(a.directives, DIRECTIVES);
    TypesThere(s, TYPES);
    FilledAlready(a.types, TYPES);
    FilledHas(s.types[q].fields, more);
    FilledAlready(a.types[q].fields, more);
    EntityThere(s);
    assert a.types[q := a.types[q]] == a.types;
  }

  lemma {:induction false} EntityThere(s: Schema)
    requires Augmented(s).Some?
    ensures Entities(s.types) != {} ==> "_Entity" in Augmented(s).value.types
  {
    FilledKeeps(s.types, TYPES);
  }
}
