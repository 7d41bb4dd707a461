/** JSON values in canonical form and their compact text: members ordered by
    key, the last of duplicate keys kept, strings escaped. */
module JsonText {
  import opened Basics
  import opened Splitting

  /** A JSON document: members in the order they were written. */
  datatype Doc =
    | DNull
    | DBool(b: bool)
    | DNum(n: Number)
    | DStr(s: string)
    | DArr(items: seq<Doc>)
    | DObj(members: seq<Member>)

  datatype Member = Member(key: string, val: Doc)

  /** The value a document denotes. */
  function Value(d: Doc): Json {
    match d
    case DNull => Null
    case DBool(b) => Bool(b)
    case DNum(n) => Num(n)
    case DStr(s) => Str(s)
    case DArr(items) => Arr(Values(items))
    case DObj(ms) => Obj(Members(ms))
  }

  function Values(ds: seq<Doc>): (js: seq<Json>)
    ensures |js| == |ds|
  {
    if ds == [] then [] else [Value(ds[0])] + Values(ds[1..])
  }

  /** Of duplicate keys, the last counts. */
  function Members(ms: seq<Member>): map<string, Json> {
    if ms == [] then map[] else map[ms[0].key := Value(ms[0].val)] + Members(ms[1..])
  }

  // ----- ordering keys

  function Less(a: string, b: string): bool {
    if b == "" then false
    else if a == "" then true
    else if a[0] != b[0] then a[0] < b[0]
    else Less(a[1..], b[1..])
  }

  lemma {:induction false} Trichotomy(a: string, b: string)
    ensures Less(a, b) || a == b || Less(b, a)
    ensures !(Less(a, b) && (a == b || Less(b, a)))
  {
    if a != "" && b != "" && a[0] == b[0] {
      Trichotomy(a[1..], b[1..]);
      assert a == [a[0]] + a[1..] && b == [b[0]] + b[1..];
    }
  }

  lemma {:induction false} Transitive(a: string, b: string, c: string)
    requires Less(a, b) && Less(b, c)
    ensures Less(a, c)
  {
    if a != "" && a[0] == b[0] && b[0] == c[0] {
      Transitive(a[1..], b[1..], c[1..]);
    }
  }

  // ----- canonical documents

  /** Keys strictly ascend. */
  ghost predicate Sorted(ms: seq<Member>) {
    ms != [] ==> Below(ms[0].key, ms[1..]) && Sorted(ms[1..])
  }

  ghost predicate Below(k: string, ms: seq<Member>) {
    forall i :: 0 <= i < |ms| ==> Less(k, ms[i].key)
  }

  ghost predicate Canonical(d: Doc) {
    match d
    case DArr(items) => AllCanonical(items)
    case DObj(ms) => Sorted(ms) && MembersCanonical(ms)
    case _ => true
  }

  ghost predicate AllCanonical(ds: seq<Doc>) {
    ds != [] ==> Canonical(ds[0]) && AllCanonical(ds[1..])
  }

  ghost predicate MembersCanonical(ms: seq<Member>) {
    ms != [] ==> Canonical(ms[0].val) && MembersCanonical(ms[1..])
  }

  /** Enters one member into an ordered map. */
  function InsertMember(ms: seq<Member>, k: string, v: Doc): seq<Member> {
    if ms == [] then [Member(k, v)]
    else if ms[0].key == k then [Member(k, v)] + ms[1..]
    else if Less(k, ms[0].key) then [Member(k, v)] + ms
    else [ms[0]] + InsertMember(ms[1..], k, v)
  }

  function Canon(d: Doc): Doc
    decreases d, 0
  {
    match d
    case DArr(items) => DArr(CanonItems(items))
    case DObj(ms) => DObj(CanonMembers(ms))
    case _ => d
  }

  function CanonItems(ds: seq<Doc>): seq<Doc>
    decreases ds, 0
  {
    if ds == [] then [] else [Canon(ds[0])] + CanonItems(ds[1..])
  }

  function CanonMembers(ms: seq<Member>): seq<Member>
    decreases ms, 0
  {
    if ms == [] then []
    else InsertMember(CanonMembers(ms[..|ms| - 1]), ms[|ms| - 1].key, Canon(ms[|ms| - 1].val))
  }

  lemma {:induction false} MembersSnoc(ms: seq<Member>, k: string, v: Doc)
    ensures Members(ms + [Member(k, v)]) == Members(ms)[k := Value(v)]
  {
    if ms == [] {
      assert [Member(k, v)][1..] == [];
    } else {
      assert (ms + [Member(k, v)])[1..] == ms[1..] + [Member(k, v)];
      MembersSnoc(ms[1..], k, v);
    }
  }

  lemma {:induction false} BelowKeys(k: string, ms: seq<Member>)
    requires Below(k, ms)
    ensures k !in Members(ms)
  {
    if ms != [] {
      Trichotomy(k, ms[0].key);
      assert Below(k, ms[1..]) by { assert forall i :: 0 <= i < |ms[1..]| ==> ms[1..][i] == ms[i + 1]; }
      BelowKeys(k, ms[1..]);
    }
  }

  lemma {:induction false} BelowInserted(c: string, ms: seq<Member>, k: string, v: Doc)
    requires Less(c, k) && Below(c, ms)
    ensures Below(c, InsertMember(ms, k, v))
  {
    if ms != [] && ms[0].key != k && !Less(k, ms[0].key) {
      assert forall i :: 0 <= i < |ms[1..]| ==> ms[1..][i] == ms[i + 1];
      BelowInserted(c, ms[1..], k, v);
    }
  }

  lemma {:induction false} BelowFirst(k: string, ms: seq<Member>)
    requires Sorted(ms) && ms != [] && Less(k, ms[0].key)
    ensures Below(k, ms)
  {
    forall i | 0 <= i < |ms| ensures Less(k, ms[i].key) {
      if i > 0 {
        assert ms[1..][i - 1] == ms[i];
        Transitive(k, ms[0].key, ms[i].key);
      }
    }
  }

  lemma {:induction false} InsertSorted(ms: seq<Member>, k: string, v: Doc)
    requires Sorted(ms) && MembersCanonical(ms) && Canonical(v)
    ensures Sorted(InsertMember(ms, k, v)) && MembersCanonical(InsertMember(ms, k, v))
  {
    var r := InsertMember(ms, k, v);
    if ms == [] {
      assert r[1..] == [];
    } else if ms[0].key == k {
      assert r[1..] == ms[1..];
    } else if Less(k, ms[0].key) {
      assert r[1..] == ms;
      BelowFirst(k, ms);
    } else {
      Trichotomy(k, ms[0].key);
      InsertSorted(ms[1..], k, v);
      BelowInserted(ms[0].key, ms[1..], k, v);
      assert r[1..] == InsertMember(ms[1..], k, v) && r[0] == ms[0];
    }
  }

  lemma {:induction false} InsertMembers(ms: seq<Member>, k: string, v: Doc)
    requires Sorted(ms)
    ensures Members(InsertMember(ms, k, v)) == Members(ms)[k := Value(v)]
  {
    var r, x := InsertMember(ms, k, v), Value(v);
    if ms == [] {
      assert r[1..] == [];
    } else if ms[0].key == k {
      assert r[1..] == ms[1..];
      BelowKeys(k, ms[1..]);
      PushOver(k, Value(ms[0].val), x, Members(ms[1..]));
    } else if Less(k, ms[0].key) {
      assert r[1..] == ms;
      BelowFirst(k, ms);
      BelowKeys(k, ms);
      PushFront(k, x, Members(ms));
    } else {
      InsertMembers(ms[1..], k, v);
      assert r[1..] == InsertMember(ms[1..], k, v) && r[0] == ms[0];
      PushPast(ms[0].key, Value(ms[0].val), Members(ms[1..]), k, x);
    }
  }

  lemma PushOver(k: string, was: Json, now: Json, m: map<string, Json>)
    requires k !in m
    ensures map[k := now] + m == (map[k := was] + m)[k := now]
  {
  }

  lemma PushFront(k: string, x: Json, m: map<string, Json>)
    requires k !in m
    ensures map[k := x] + m == m[k := x]
  {
  }

  lemma PushPast(first: string, y: Json, m: map<string, Json>, k: string, x: Json)
    ensures map[first := y] + m[k := x] == (map[first := y] + m)[k := x]
  {
  }

  /** Canonicalising keeps the value. */
  lemma {:induction false} CanonKeeps(d: Doc)
    ensures Canonical(Canon(d)) && Value(Canon(d)) == Value(d)
    decreases d, 0
  {
    match d
    case DArr(items) => ItemsKeep(items);
    case DObj(ms) => MembersKeep(ms);
    case _ =>
  }

  lemma {:induction false} ItemsKeep(ds: seq<Doc>)
    ensures AllCanonical(CanonItems(ds)) && Values(CanonItems(ds)) == Values(ds)
    decreases ds, 0
  {
    if ds != [] {
      CanonKeeps(ds[0]);
      ItemsKeep(ds[1..]);
      assert CanonItems(ds)[1..] == CanonItems(ds[1..]) && CanonItems(ds)[0] == Canon(ds[0]);
    }
  }

  lemma {:induction false} MembersKeep(ms: seq<Member>)
    ensures Sorted(CanonMembers(ms)) && MembersCanonical(CanonMembers(ms)) && Members(CanonMembers(ms)) == Members(ms)
    decreases ms, 0
  {
    if ms != [] {
      var n := |ms| - 1;
      MembersKeep(ms[..n]);
      CanonKeeps(ms[n].val);
      InsertSorted(CanonMembers(ms[..n]), ms[n].key, Canon(ms[n].val));
      InsertMembers(CanonMembers(ms[..n]), ms[n].key, Canon(ms[n].val));
      MembersSnoc(ms[..n], ms[n].key, ms[n].val);
      assert ms == ms[..n] + [Member(ms[n].key, ms[n].val)];
    }
  }

  /** Canonical documents are determined by their value. */
  lemma {:induction false} CanonicalUnique(a: Doc, b: Doc)
    requires Canonical(a) && Canonical(b) && Value(a) == Value(b)
    ensures a == b
    decreases a, 0
  {
    match a
    case DArr(items) => ItemsUnique(items, b.items);
    case DObj(ms) => MembersUnique(ms, b.members);
    case _ =>
  }

  lemma {:induction false} ItemsUnique(a: seq<Doc>, b: seq<Doc>)
    requires AllCanonical(a) && AllCanonical(b) && Values(a) == Values(b)
    ensures a == b
    decreases a, 0
  {
    assert |Values(a)| == |Values(b)|;
    if a != [] {
      assert Values(a)[0] == Value(a[0]) && Values(b)[0] == Value(b[0]);
      assert Values(a)[1..] == Values(a[1..]) && Values(b)[1..] == Values(b[1..]);
      CanonicalUnique(a[0], b[0]);
      ItemsUnique(a[1..], b[1..]);
      assert a == [a[0]] + a[1..] && b == [b[0]] + b[1..];
    }
  }

  /** The first key of a sorted list is the least key of its map. */
  lemma {:induction false} LeastKey(ms: seq<Member>, k: string)
    requires Sorted(ms) && k in Members(ms)
    ensures ms != [] && (k == ms[0].key || Less(ms[0].key, k))
  {
    if ms != [] && k != ms[0].key {
      KeyListed(ms[1..], k);
    }
  }

  lemma {:induction false} KeyListed(ms: seq<Member>, k: string)
    requires k in Members(ms)
    ensures exists i :: 0 <= i < |ms| && ms[i].key == k
  {
    if ms[0].key != k {
      KeyListed(ms[1..], k);
      var i :| 0 <= i < |ms[1..]| && ms[1..][i].key == k;
      assert ms[i + 1].key == k;
    }
  }

  lemma {:induction false} SomeMembers(ms: seq<Member>)
    ensures ms != [] <==> |Members(ms)| != 0
  {
    if ms != [] {
      assert ms[0].key in Members(ms);
    }
  }

  lemma {:induction false} TailMembers(ms: seq<Member>)
    requires Sorted(ms) && ms != []
    ensures ms[0].key in Members(ms) && Members(ms)[ms[0].key] == Value(ms[0].val)
    ensures Members(ms[1..]) == Members(ms) - {ms[0].key}
  {
    BelowKeys(ms[0].key, ms[1..]);
  }

  lemma {:induction false} SameFirst(a: seq<Member>, b: seq<Member>)
    requires Sorted(a) && Sorted(b) && Members(a) == Members(b) && a != [] && b != []
    ensures a[0].key == b[0].key && Value(a[0].val) == Value(b[0].val) && Members(a[1..]) == Members(b[1..])
  {
    TailMembers(a);
    TailMembers(b);
    LeastKey(b, a[0].key);
    LeastKey(a, b[0].key);
    Trichotomy(a[0].key, b[0].key);
  }

  lemma {:induction false} MembersUnique(a: seq<Member>, b: seq<Member>)
    requires Sorted(a) && Sorted(b) && MembersCanonical(a) && MembersCanonical(b) && Members(a) == Members(b)
    ensures a == b
    decreases a, 0
  {
    SomeMembers(a);
    SomeMembers(b);
    if a != [] {
      SameFirst(a, b);
      CanonicalUnique(a[0].val, b[0].val);
      MembersUnique(a[1..], b[1..]);
      assert a == [a[0]] + a[1..] && b == [b[0]] + b[1..];
    }
  }

  /** Documents with the same value, in any member order, have one canonical
      form, and only those do. */
  lemma {:induction false} CanonExact(a: Doc, b: Doc)
    ensures Canon(a) == Canon(b) <==> Value(a) == Value(b)
  {
    CanonKeeps(a);
    CanonKeeps(b);
    if Value(a) == Value(b) {
      CanonicalUnique(Canon(a), Canon(b));
    }
  }

  // ----- compact text

  function Hex(n: int): char
    requires 0 <= n < 16
  {
    if n < 10 then '0' + n as char else 'a' + (n - 10) as char
  }

  /** One character inside a string. */
  function Esc(c: char): string {
    if c == '\"' then ['\\', '\"']
    else if c == '\\' then ['\\', '\\']
    else if c == '\n' then ['\\', 'n']
    else if c == '\r' then ['\\', 'r']
    else if c == '\t' then ['\\', 't']
    else if c as int == 8 then ['\\', 'b']
    else if c as int == 12 then ['\\', 'f']
    else if c < ' ' then ['\\', 'u', '0', '0', Hex(c as int / 16), Hex(c as int % 16)]
    else [c]
  }

  function EscAll(s: string): string {
    if s == "" then "" else Esc(s[0]) + EscAll(s[1..])
  }

  function Quoted(s: string): string {
    ['\"'] + EscAll(s) + ['\"']
  }

  function Digits(n: nat): string {
    if n < 10 then ['0' + n as char] else Digits(n / 10) + ['0' + (n % 10) as char]
  }

  function Decimal(n: int): string {
    if n < 0 then ['-'] + Digits(-n) else Digits(n)
  }

  function NumText(n: Number): string {
    match n
    case Whole(i) => Decimal(i)
    case Float(text) => text
  }

  function Print(d: Doc): string
    decreases d, 0
  {
    match d
    case DNull => "null"
    case DBool(b) => if b then "true" else "false"
    case DNum(n) => NumText(n)
    case DStr(s) => Quoted(s)
    case DArr(items) => "[" + PrintItems(items)
    case DObj(ms) => "{" + PrintMembers(ms)
  }

  /** The rest of an array after its bracket or a comma. */
  function PrintItems(ds: seq<Doc>): string
    decreases ds, 0
  {
    if ds == [] then "]"
    else Print(ds[0]) + (if |ds| == 1 then "]" else "," + PrintItems(ds[1..]))
  }

  function PrintMembers(ms: seq<Member>): string
    decreases ms, 0
  {
    if ms == [] then "}"
    else Quoted(ms[0].key) + ([':'] + (Print(ms[0].val) + (if |ms| == 1 then "}" else "," + PrintMembers(ms[1..]))))
  }

  predicate IsDigit(c: char) {
    '0' <= c <= '9'
  }

  /** What may follow a value. */
  predicate Stops(r: string) {
    r == "" || r[0] in [',', ']', '}']
  }

  lemma HexExact(a: int, b: int)
    requires 0 <= a < 16 && 0 <= b < 16 && Hex(a) == Hex(b)
    ensures a == b
  {
  }

  lemma {:induction false} EscFirst(c: char, c': char, r: string, r': string)
    requires Esc(c) + r == Esc(c') + r'
    ensures c == c' && r == r'
  {
    var s := Esc(c) + r;
    assert s[0] == Esc(c)[0] && s[0] == Esc(c')[0];
    if |Esc(c)| > 1 && |Esc(c')| > 1 {
      assert s[1] == Esc(c)[1] && s[1] == Esc(c')[1];
      if |Esc(c)| == 6 && |Esc(c')| == 6 {
        assert s[4] == Esc(c)[4] && s[4] == Esc(c')[4] && s[5] == Esc(c)[5] && s[5] == Esc(c')[5];
        HexExact(c as int / 16, c' as int / 16);
        HexExact(c as int % 16, c' as int % 16);
      }
    }
    assert c == c';
    assert r == s[|Esc(c)|..] && r' == s[|Esc(c')|..];
  }

  /** A string's text after its opening quote. */
  function Rest(s: string, r: string): string {
    EscAll(s) + (['\"'] + r)
  }

  lemma Reassoc(a: string, b: string, c: string)
    ensures a + b + c == a + (b + c)
  {
  }

  lemma EscStart(c: char)
    ensures Esc(c) != "" && Esc(c)[0] != '\"'
  {
  }

  lemma {:induction false} RestHead(s: string, r: string)
    ensures s == "" ==> Rest(s, r) == ['\"'] + r
    ensures s != "" ==> Rest(s, r) == Esc(s[0]) + Rest(s[1..], r) && Rest(s, r)[0] != '\"'
  {
    if s != "" {
      Reassoc(Esc(s[0]), EscAll(s[1..]), ['\"'] + r);
      assert Rest(s, r)[0] == Esc(s[0])[0];
      EscStart(s[0]);
    }
  }

  lemma {:induction false} QuotedExact(s: string, s': string, r: string, r': string)
    requires Rest(s, r) == Rest(s', r')
    ensures s == s' && r == r'
  {
    RestHead(s, r);
    RestHead(s', r');
    if s == "" {
      SplitAt(['\"'], r, ['\"'], r');
    } else {
      EscFirst(s[0], s'[0], Rest(s[1..], r), Rest(s'[1..], r'));
      QuotedExact(s[1..], s'[1..], r, r');
      assert s == [s[0]] + s[1..] && s' == [s'[0]] + s'[1..];
    }
  }

  lemma {:induction false} DigitsShape(n: nat)
    ensures Digits(n) != "" && forall i :: 0 <= i < |Digits(n)| ==> IsDigit(Digits(n)[i])
  {
    if n >= 10 {
      DigitsShape(n / 10);
    }
  }

  lemma {:induction false} DigitsExact(a: nat, b: nat)
    requires Digits(a) == Digits(b)
    ensures a == b
  {
    DigitsShape(a / 10);
    DigitsShape(b / 10);
    var s := Digits(a);
    if a >= 10 && b >= 10 {
      assert s[..|s| - 1] == Digits(a / 10) && s[..|s| - 1] == Digits(b / 10);
      DigitsExact(a / 10, b / 10);
      assert s[|s| - 1] == '0' + (a % 10) as char && s[|s| - 1] == '0' + (b % 10) as char;
    }
  }

  /** A number's text ends where no number character follows. */
  lemma {:induction false} RunExact(x: string, r: string, x': string, r': string)
    requires x + r == x' + r' && Stops(r) && Stops(r')
    requires (forall i :: 0 <= i < |x| ==> IsNumChar(x[i])) && (forall i :: 0 <= i < |x'| ==> IsNumChar(x'[i]))
    ensures x == x' && r == r'
  {
    var s := x + r;
    assert s == x' + r';
    assert |x| < |s| ==> s[|x|] == r[0];
    assert |x'| < |s| ==> s[|x'|] == r'[0];
    SplitAt(x, r, x', r');
  }

  /** Number characters throughout, a digit or sign first, and a point or
      exponent exactly in doubles. */
  lemma {:induction false} NumShape(n: Number)
    ensures var t := NumText(n);
            && t != "" && (t[0] == '-' || IsDigit(t[0]))
            && (forall i :: 0 <= i < |t| ==> IsNumChar(t[i]))
            && (n.Float? <==> '.' in t || 'e' in t)
            && (n.Whole? ==> (t[0] == '-' <==> n.i < 0))
  {
    if n.Whole? {
      DigitsShape(if n.i < 0 then -n.i else n.i);
    }
  }

  lemma {:induction false} NumTextExact(a: Number, b: Number)
    requires NumText(a) == NumText(b)
    ensures a == b
  {
    NumShape(a);
    NumShape(b);
    if a.Whole? {
      var x, y := if a.i < 0 then -a.i else a.i, if b.i < 0 then -b.i else b.i;
      if a.i < 0 {
        assert NumText(a)[1..] == Digits(x) && NumText(b)[1..] == Digits(y);
      }
      DigitsExact(x, y);
    }
  }

  lemma {:induction false} NumberExact(a: Number, b: Number, r: string, r': string)
    requires NumText(a) + r == NumText(b) + r' && Stops(r) && Stops(r')
    ensures a == b && r == r'
  {
    NumShape(a);
    NumShape(b);
    RunExact(NumText(a), r, NumText(b), r');
    NumTextExact(a, b);
  }

  /** The first character of a value's text tells its kind. */
  function KindChar(c: char): nat {
    if c == 'n' then 0 else if c == 't' then 1 else if c == 'f' then 2
    else if c == '-' || IsDigit(c) then 3 else if c == '\"' then 4 else if c == '[' then 5 else if c == '{' then 6 else 7
  }

  function KindOf(d: Doc): nat {
    match d
    case DNull => 0
    case DBool(b) => if b then 1 else 2
    case DNum(_) => 3
    case DStr(_) => 4
    case DArr(_) => 5
    case DObj(_) => 6
  }

  lemma {:induction false} FirstChar(d: Doc)
    ensures Print(d) != "" && KindChar(Print(d)[0]) == KindOf(d)
  {
    match d
    case DNum(n) => NumShape(n);
    case _ =>
  }

  /** Text after an array's first item, with what follows the array. */
  function AfterItem(ds: seq<Doc>, r: string): string
    requires ds != []
  {
    if |ds| == 1 then "]" + r else "," + (PrintItems(ds[1..]) + r)
  }

  function AfterMember(ms: seq<Member>, r: string): string
    requires ms != []
  {
    if |ms| == 1 then "}" + r else "," + (PrintMembers(ms[1..]) + r)
  }

  lemma {:induction false} ItemsHead(ds: seq<Doc>, r: string)
    ensures ds == [] ==> PrintItems(ds) + r == "]" + r
    ensures ds != [] ==> PrintItems(ds) + r == Print(ds[0]) + AfterItem(ds, r) && Stops(AfterItem(ds, r))
    ensures ds != [] ==> (PrintItems(ds) + r)[0] != ']'
  {
    if ds != [] {
      FirstChar(ds[0]);
      Reassoc(",", PrintItems(ds[1..]), r);
      Reassoc(Print(ds[0]), if |ds| == 1 then "]" else "," + PrintItems(ds[1..]), r);
    }
  }

  lemma {:induction false} QuotedRest(k: string, r: string)
    ensures Quoted(k) + r == ['\"'] + Rest(k, r)
  {
  }

  lemma {:induction false} MembersHead(ms: seq<Member>, r: string)
    ensures ms == [] ==> PrintMembers(ms) + r == "}" + r
    ensures ms != [] ==> PrintMembers(ms) + r == ['\"'] + Rest(ms[0].key, [':'] + (Print(ms[0].val) + AfterMember(ms, r)))
    ensures ms != [] ==> Stops(AfterMember(ms, r)) && (PrintMembers(ms) + r)[0] != '}'
  {
    if ms != [] {
      var x, v := if |ms| == 1 then "}" else "," + PrintMembers(ms[1..]), Print(ms[0].val);
      Reassoc(",", PrintMembers(ms[1..]), r);
      Reassoc(v, x, r);
      Reassoc([':'], v + x, r);
      Reassoc(Quoted(ms[0].key), [':'] + (v + x), r);
      QuotedRest(ms[0].key, [':'] + (v + AfterMember(ms, r)));
    }
  }

  /** Compact text is uniquely readable: a value's text determines the value,
      wherever it stands. */
  lemma {:induction false} PrintExact(a: Doc, b: Doc, r: string, r': string)
    requires Print(a) + r == Print(b) + r' && Stops(r) && Stops(r')
    ensures a == b && r == r'
    decreases a, 1
  {
    FirstChar(a);
    FirstChar(b);
    var s := Print(a) + r;
    assert s[0] == Print(a)[0] && s[0] == Print(b)[0];
    match a
    case DNum(n) => NumberExact(n, b.n, r, r');
    case DStr(x) =>
      QuotedRest(x, r);
      QuotedRest(b.s, r');
      SplitAt(['\"'], Rest(x, r), ['\"'], Rest(b.s, r'));
      QuotedExact(x, b.s, r, r');
    case DArr(items) =>
      Reassoc("[", PrintItems(items), r);
      Reassoc("[", PrintItems(b.items), r');
      SplitAt("[", PrintItems(items) + r, "[", PrintItems(b.items) + r');
      ItemsExact(items, b.items, r, r');
    case DObj(ms) =>
      Reassoc("{", PrintMembers(ms), r);
      Reassoc("{", PrintMembers(b.members), r');
      SplitAt("{", PrintMembers(ms) + r, "{", PrintMembers(b.members) + r');
      MembersExact(ms, b.members, r, r');
    case _ => SplitAt(Print(a), r, Print(b), r');
  }

  lemma {:induction false} ItemsExact(a: seq<Doc>, b: seq<Doc>, r: string, r': string)
    requires PrintItems(a) + r == PrintItems(b) + r' && Stops(r) && Stops(r')
    ensures a == b && r == r'
    decreases a, 0
  {
    ItemsHead(a, r);
    ItemsHead(b, r');
    if a == [] {
      SplitAt("]", r, "]", r');
    } else {
      PrintExact(a[0], b[0], AfterItem(a, r), AfterItem(b, r'));
      AfterItems(a, b, r, r');
    }
  }

  lemma {:induction false} AfterItems(a: seq<Doc>, b: seq<Doc>, r: string, r': string)
    requires a != [] && b != [] && a[0] == b[0] && AfterItem(a, r) == AfterItem(b, r') && Stops(r) && Stops(r')
    ensures a == b && r == r'
    decreases a[1..], 1
  {
    if |a| == 1 {
      assert AfterItem(a, r)[0] == ']' && |b| == 1;
      SplitAt("]", r, "]", r');
      assert a == [a[0]] && b == [b[0]];
    } else {
      assert AfterItem(a, r)[0] == ',' && |b| > 1;
      SplitAt(",", PrintItems(a[1..]) + r, ",", PrintItems(b[1..]) + r');
      ItemsExact(a[1..], b[1..], r, r');
      assert a == [a[0]] + a[1..] && b == [b[0]] + b[1..];
    }
  }

  lemma {:induction false} MembersExact(a: seq<Member>, b: seq<Member>, r: string, r': string)
    requires PrintMembers(a) + r == PrintMembers(b) + r' && Stops(r) && Stops(r')
    ensures a == b && r == r'
    decreases a, 0
  {
    MembersHead(a, r);
    MembersHead(b, r');
    if a == [] {
      SplitAt("}", r, "}", r');
    } else {
      var va, vb := Print(a[0].val) + AfterMember(a, r), Print(b[0].val) + AfterMember(b, r');
      SplitAt(['\"'], Rest(a[0].key, [':'] + va), ['\"'], Rest(b[0].key, [':'] + vb));
      QuotedExact(a[0].key, b[0].key, [':'] + va, [':'] + vb);
      SplitAt([':'], va, [':'], vb);
      PrintExact(a[0].val, b[0].val, AfterMember(a, r), AfterMember(b, r'));
      AfterMembers(a, b, r, r');
    }
  }

  lemma {:induction false} AfterMembers(a: seq<Member>, b: seq<Member>, r: string, r': string)
    requires a != [] && b != [] && a[0] == b[0] && AfterMember(a, r) == AfterMember(b, r') && Stops(r) && Stops(r')
    ensures a == b && r == r'
    decreases a[1..], 1
  {
    if |a| == 1 {
      assert AfterMember(a, r)[0] == '}' && |b| == 1;
      SplitAt("}", r, "}", r');
      assert a == [a[0]] && b == [b[0]];
    } else {
      assert AfterMember(a, r)[0] == ',' && |b| > 1;
      SplitAt(",", PrintMembers(a[1..]) + r, ",", PrintMembers(b[1..]) + r');
      MembersExact(a[1..], b[1..], r, r');
      assert a == [a[0]] + a[1..] && b == [b[0]] + b[1..];
    }
  }

  /** Compact text stays on one line. */
  lemma {:induction false} OneLine(d: Doc)
    ensures '\n' !in Print(d)
    decreases d, 0
  {
    match d
    case DNum(n) => NumShape(n);
    case DStr(s) => EscLine(s);
    case DArr(items) => ItemsLine(items);
    case DObj(ms) => MembersLine(ms);
    case _ =>
  }

  lemma {:induction false} EscLine(s: string)
    ensures '\n' !in EscAll(s)
  {
    if s != "" {
      EscLine(s[1..]);
    }
  }

  lemma {:induction false} ItemsLine(ds: seq<Doc>)
    ensures '\n' !in PrintItems(ds)
    decreases ds, 0
  {
    if ds != [] {
      OneLine(ds[0]);
      ItemsLine(ds[1..]);
    }
  }

  lemma {:induction false} MembersLine(ms: seq<Member>)
    ensures '\n' !in PrintMembers(ms)
    decreases ms, 0
  {
    if ms != [] {
      EscLine(ms[0].key);
      OneLine(ms[0].val);
      MembersLine(ms[1..]);
    }
  }
}
