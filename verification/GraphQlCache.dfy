/** The GraphQL cache's keys: variables in canonical form, and operations
    that share an entry exactly when they are the same operation. */
module GraphQlCache {
  import opened Basics
  import opened JsonText
  import opened Cache
  import opened Splitting

  /** Variables as a request carries them: a parsed envelope, or the text of
      a query parameter (`json` is its document, when it is one). */
  datatype RawVariables = Parsed(doc: Doc) | InText(text: string, json: Option<Doc>)

  function Shortened(text: string): string {
    if text == "null" || text == "{}" then "" else text
  }

  function CanonicalVariables(raw: Option<RawVariables>): string {
    match raw
    case None => ""
    case Some(Parsed(d)) => Shortened(Print(Canon(d)))
    case Some(InText(text, json)) => Shortened(if json.Some? then Print(Canon(json.value)) else text)
  }

  /** For variables already held as an ordered value. */
  function CanonicalJsonVariables(value: Option<Doc>): string {
    match value
    case None => ""
    case Some(DNull) => ""
    case Some(d) => if Print(d) == "{}" then "" else Print(d)
  }

  /** `json` is what parsing the text gives: text without a document is not
      the text of any. */
  ghost predicate WellParsed(raw: Option<RawVariables>) {
    raw.Some? && raw.value.InText? && raw.value.json.None? ==> forall d :: Print(d) != raw.value.text
  }

  /** Variables as JSON, or as text that is none. */
  datatype Meaning = Json(j: Json) | Verbatim(text: string)

  predicate IsJson(raw: Option<RawVariables>) {
    raw.Some? && raw.value.InText? ==> raw.value.json.Some?
  }

  function DocOf(raw: Option<RawVariables>): Doc
    requires IsJson(raw)
  {
    match raw
    case None => DObj([])
    case Some(Parsed(d)) => d
    case Some(InText(_, json)) => json.value
  }

  /** The variables a request means: absent, null, `{}` and empty text
      coincide; other text that is not JSON stands for itself. */
  function Meant(raw: Option<RawVariables>): Meaning {
    if IsJson(raw) then
      var v := Value(DocOf(raw));
      Json(if v == Null then Obj(map[]) else v)
    else if raw.value.text == "" then Json(Obj(map[]))
    else Verbatim(raw.value.text)
  }

  lemma {:induction false} Texts(d: Doc)
    requires Canonical(d)
    ensures Print(d) == "null" <==> Value(d) == Null
    ensures Print(d) == "{}" <==> Value(d) == Obj(map[])
    ensures Print(d) != ""
  {
    FirstChar(d);
    if Print(d) == "null" {
      assert Print(d) + "" == Print(DNull) + "";
      PrintExact(d, DNull, "", "");
    }
    if Print(d) == "{}" {
      assert Print(d) + "" == Print(DObj([])) + "";
      PrintExact(d, DObj([]), "", "");
    }
    if Value(d) == Obj(map[]) {
      SomeMembers(d.members);
    }
  }

  /** Canonical variables agree exactly when the variables mean the same. */
  lemma {:induction false} VariablesExact(a: Option<RawVariables>, b: Option<RawVariables>)
    requires WellParsed(a) && WellParsed(b)
    ensures CanonicalVariables(a) == CanonicalVariables(b) <==> Meant(a) == Meant(b)
  {
    Canonicalised(a);
    Canonicalised(b);
    if IsJson(a) && IsJson(b) && Meant(a) != NOTHING && Meant(b) != NOTHING {
      var x, y := Canon(DocOf(a)), Canon(DocOf(b));
      if Print(x) == Print(y) {
        assert Print(x) + "" == Print(y) + "";
        PrintExact(x, y, "", "");
      }
      CanonExact(DocOf(a), DocOf(b));
    }
  }

  const NOTHING := Json(Obj(map[]))

  lemma {:induction false} Canonicalised(raw: Option<RawVariables>)
    requires WellParsed(raw)
    ensures Meant(raw) == NOTHING <==> CanonicalVariables(raw) == ""
    ensures Meant(raw) != NOTHING ==>
              CanonicalVariables(raw) == if IsJson(raw) then Print(Canon(DocOf(raw))) else raw.value.text
    ensures IsJson(raw) ==> '\n' !in CanonicalVariables(raw)
  {
    if IsJson(raw) {
      var d := DocOf(raw);
      CanonKeeps(d);
      Texts(Canon(d));
      OneLine(Canon(d));
    } else {
      assert Print(DNull) == "null" && Print(DObj([])) == "{}";
    }
  }

  /** Both canonical forms are one: a persisted operation's variables share
      entries with the same variables sent by a client. */
  lemma {:induction false} FormsAgree(d: Doc)
    ensures CanonicalJsonVariables(Some(Canon(d))) == CanonicalVariables(Some(Parsed(d)))
  {
    CanonKeeps(d);
    Texts(Canon(d));
  }

  /** One operation sent to one API. */
  datatype Operation = Operation(org: string, scope: string, sdl: string, name: Option<string>, query: string,
                                 variables: Option<RawVariables>)

  function NameOf(op: Operation): string {
    if op.name.Some? then op.name.value else ""
  }

  function SubjectOf(op: Operation): Subject {
    Gql(op.org, op.scope, op.sdl, NameOf(op), op.query, CanonicalVariables(op.variables))
  }

  /** `a`'s variables are no JSON and begin with a line that `b`'s query has
      after `a`'s; what follows is `b`'s variables. */
  ghost predicate Shifted(a: Operation, b: Operation) {
    && !IsJson(a.variables)
    && exists u: string :: ReadOn(a, b, u)
  }

  ghost predicate ReadOn(a: Operation, b: Operation, u: string)
    requires !IsJson(a.variables)
  {
    b.query == a.query + ['\n'] + u && a.variables.value.text == u + ['\n'] + CanonicalVariables(b.variables)
  }

  ghost predicate SameOperation(a: Operation, b: Operation) {
    a.query == b.query && Meant(a.variables) == Meant(b.variables)
  }

  lemma {:induction false} BrokenText(raw: Option<RawVariables>)
    requires !IsJson(raw) && '\n' in raw.value.text
    ensures CanonicalVariables(raw) == raw.value.text
  {
    assert '\n' !in "null" && '\n' !in "{}";
  }

  lemma {:induction false} ShiftedExact(a: Operation, b: Operation)
    requires WellParsed(a.variables)
    ensures Continues(a.query, CanonicalVariables(a.variables), b.query, CanonicalVariables(b.variables), '\n') <==> Shifted(a, b)
  {
    var v, v' := CanonicalVariables(a.variables), CanonicalVariables(b.variables);
    Canonicalised(a.variables);
    if Continues(a.query, v, b.query, v', '\n') {
      var u :| b.query == a.query + ['\n'] + u && v == u + ['\n'] + v';
      assert v[|u|] == '\n';
      assert ReadOn(a, b, u);
    }
    if Shifted(a, b) {
      var u :| ReadOn(a, b, u);
      assert a.variables.value.text[|u|] == '\n';
      BrokenText(a.variables);
    }
  }

  lemma {:induction false} MaterialsAgree(a: Operation, b: Operation)
    requires '\n' !in a.sdl && '\n' !in b.sdl && '\n' !in NameOf(a) && '\n' !in NameOf(b)
    ensures Material(SubjectOf(a)) == Material(SubjectOf(b)) <==>
            && a.sdl == b.sdl && NameOf(a) == NameOf(b)
            && a.query + ['\n'] + CanonicalVariables(a.variables) == b.query + ['\n'] + CanonicalVariables(b.variables)
  {
    var qa, qb := a.query + ['\n'] + CanonicalVariables(a.variables), b.query + ['\n'] + CanonicalVariables(b.variables);
    if Material(SubjectOf(a)) == Material(SubjectOf(b)) {
      SplitFirst(a.sdl, NameOf(a) + ['\n'] + qa, b.sdl, NameOf(b) + ['\n'] + qb, '\n');
      SplitFirst(NameOf(a), qa, NameOf(b), qb, '\n');
    }
  }

  /** Two operations share a key exactly when they are filed in one place
      under one schema and operation name, and are the same operation or
      differ in where a line break is read. */
  lemma {:induction false} OperationKeysExact(hash: string -> string, a: Operation, b: Operation)
    requires Collisionless(hash) && WellParsed(a.variables) && WellParsed(b.variables)
    requires '\n' !in a.sdl && '\n' !in b.sdl && '\n' !in NameOf(a) && '\n' !in NameOf(b)
    ensures StorageKey(hash, SubjectOf(a)) == StorageKey(hash, SubjectOf(b)) <==>
            && Place(SubjectOf(a)) == Place(SubjectOf(b)) && a.sdl == b.sdl && NameOf(a) == NameOf(b)
            && (SameOperation(a, b) || Shifted(a, b) || Shifted(b, a))
  {
    KeysAgree(hash, SubjectOf(a), SubjectOf(b));
    MaterialsAgree(a, b);
    JoinedAgree(a.query, CanonicalVariables(a.variables), b.query, CanonicalVariables(b.variables), '\n');
    VariablesExact(a.variables, b.variables);
    ShiftedExact(a, b);
    ShiftedExact(b, a);
  }

  /** The shift is real for every query, line and variables: where the text
      they make is no document, it shares the entry of another operation. */
  lemma {:induction false} LineBreakCollides(hash: string -> string, op: Operation, u: string)
    ensures var a := op.(variables := Some(InText(u + ['\n'] + CanonicalVariables(op.variables), None)));
            var b := op.(query := op.query + ['\n'] + u);
            && WellParsed(a.variables) && a.query != b.query && Shifted(a, b)
            && StorageKey(hash, SubjectOf(a)) == StorageKey(hash, SubjectOf(b))
  {
    var v := CanonicalVariables(op.variables);
    var a := op.(variables := Some(InText(u + ['\n'] + v, None)));
    var b := op.(query := op.query + ['\n'] + u);
    assert (u + ['\n'] + v)[|u|] == '\n';
    forall d ensures Print(d) != u + ['\n'] + v {
      OneLine(d);
    }
    BrokenText(a.variables);
    assert |a.query| < |b.query|;
    assert ReadOn(a, b, u);
    assert op.query + ['\n'] + (u + ['\n'] + v) == op.query + ['\n'] + u + ['\n'] + v;
  }

  /** A comment line makes such a pair of any query that is received: with
      `#` and a line break before its variables it is malformed, and is given
      the answer of the same query with a trailing `#` and those variables. */
  lemma {:induction false} CommentCollides(hash: string -> string, op: Operation, d: Doc)
    requires op.variables == Some(Parsed(d))
    ensures var a := op.(variables := Some(InText("#" + ['\n'] + CanonicalVariables(op.variables), None)));
            var b := op.(query := op.query + ['\n'] + "#");
            && WellParsed(a.variables) && WellParsed(b.variables)
            && Meant(a.variables).Verbatim? && Meant(b.variables).Json?
            && StorageKey(hash, SubjectOf(a)) == StorageKey(hash, SubjectOf(b))
  {
    LineBreakCollides(hash, op, "#");
    assert ("#" + ['\n'] + CanonicalVariables(op.variables))[0] == '#';
  }
}
