/** The `Authorization: Signature` header: the hand-written scanner, its
    percent decoder, and what any well-formed header parses back to. */
module SignatureHeader {
  import opened Basics
  import opened Base64

  // ----- text helpers

  /** Unicode white space, as trimming and word splitting see it. */
  predicate IsSpace(c: char) {
    c == ' ' || '\t' <= c <= '\r' || c == '\U{85}' || c == '\U{A0}' || c == '\U{1680}'
    || '\U{2000}' <= c <= '\U{200A}' || c == '\U{2028}' || c == '\U{2029}' || c == '\U{202F}'
    || c == '\U{205F}' || c == '\U{3000}'
  }

  predicate Blank(s: string) {
    forall i :: 0 <= i < |s| ==> IsSpace(s[i])
  }

  function TrimStart(s: string): (r: string)
    ensures |r| <= |s|
  {
    if s != "" && IsSpace(s[0]) then TrimStart(s[1..]) else s
  }

  function TrimEnd(s: string): (r: string)
    ensures |r| <= |s|
  {
    if s != "" && IsSpace(s[|s| - 1]) then TrimEnd(s[..|s| - 1]) else s
  }

  function Trim(s: string): string {
    TrimEnd(TrimStart(s))
  }

  function Find(s: string, c: char): (i: Option<nat>)
    ensures i.Some? ==> i.value < |s| && s[i.value] == c && forall j :: 0 <= j < i.value ==> s[j] != c
    ensures i.None? ==> c !in s
  {
    if s == "" then None
    else if s[0] == c then Some(0)
    else
      var r := Find(s[1..], c);
      if r.None? then None else Some(r.value + 1)
  }

  function Lower(c: char): char {
    if 'A' <= c <= 'Z' then c + 32 as char else c
  }

  function ToLower(s: string): (r: string)
    ensures |r| == |s|
  {
    seq(|s|, i requires 0 <= i < |s| => Lower(s[i]))
  }

  /** The words of `s` between white space; `cur` is the word being read. */
  function Words(s: string, cur: string): seq<string> {
    if s == "" then (if cur == "" then [] else [cur])
    else if IsSpace(s[0]) then (if cur == "" then [] else [cur]) + Words(s[1..], "")
    else Words(s[1..], cur + [s[0]])
  }

  function LowerAll(ws: seq<string>): seq<string> {
    seq(|ws|, i requires 0 <= i < |ws| => ToLower(ws[i]))
  }

  // ----- percent decoding

  function HexDigit(c: char): Option<nat> {
    if '0' <= c <= '9' then Some(c as int - '0' as int)
    else if 'a' <= c <= 'f' then Some(c as int - 'a' as int + 10)
    else if 'A' <= c <= 'F' then Some(c as int - 'A' as int + 10)
    else None
  }

  /** Two hex digits; the integer parser also takes a leading plus sign. */
  function HexByte(a: char, b: char): Option<char> {
    var x, y := if a == '+' then Some(0) else HexDigit(a), HexDigit(b);
    if x.Some? && y.Some? && x.value < 16 && y.value < 16 then Some((x.value * 16 + y.value) as char) else None
  }

  function PercentDecoded(s: string): Option<string> {
    if s == "" then Some("")
    else if s[0] == '%' then
      if |s| < 3 || HexByte(s[1], s[2]).None? then None
      else
        Prepend([HexByte(s[1], s[2]).value], PercentDecoded(s[3..]))
    else Prepend([s[0]], PercentDecoded(s[1..]))
  }

  function Prepend(out: string, rest: Option<string>): Option<string> {
    if rest.None? then None else Some(out + rest.value)
  }

  lemma PrependAssoc(out: string, c: char, rest: Option<string>)
    ensures Prepend(out, Prepend([c], rest)) == Prepend(out + [c], rest)
    ensures Prepend("", rest) == rest
  {
    if rest.Some? {
      assert out + ([c] + rest.value) == out + [c] + rest.value;
      assert "" + rest.value == rest.value;
    }
  }

  /** Undoes percent-encoding, left to right. */
  method PercentDecode(s: string) returns (r: Option<string>)
    ensures r == PercentDecoded(s)
  {
    var out := "";
    var i := 0;
    PrependAssoc("", ' ', PercentDecoded(s));
    assert s[0..] == s;
    while i < |s|
      invariant 0 <= i <= |s|
      invariant PercentDecoded(s) == Prepend(out, PercentDecoded(s[i..]))
    {
      assert s[i..][0] == s[i] && s[i..][1..] == s[i + 1..];
      if s[i] == '%' {
        if i + 3 > |s| {
          return None;
        }
        assert s[i..][1] == s[i + 1] && s[i..][2] == s[i + 2] && s[i..][3..] == s[i + 3..];
        var c := HexByte(s[i + 1], s[i + 2]);
        if c.None? {
          return None;
        }
        PrependAssoc(out, c.value, PercentDecoded(s[i + 3..]));
        out := out + [c.value];
        i := i + 3;
      } else {
        PrependAssoc(out, s[i], PercentDecoded(s[i + 1..]));
        out := out + [s[i]];
        i := i + 1;
      }
    }
    assert s[i..] == "" && out + "" == out;
    r := Some(out);
  }

  // ----- scanning

  datatype Params = Params(keyId: string, algorithm: string, headers: seq<string>, signature: Bytes)

  datatype Slots = Slots(keyId: Option<string>, algorithm: Option<string>, headers: Option<string>, signature: Option<string>)

  const NO_SLOTS := Slots(None, None, None, None)

  /** One `name="value"` pair and what follows its comma. */
  function ScanOne(rest: string): (r: Option<(string, string, string)>)
    ensures r.Some? ==> |r.value.2| < |rest|
  {
    var eq := Find(rest, '=');
    if eq.None? || eq.value + 1 >= |rest| || rest[eq.value + 1] != '"' then None
    else
      var after := rest[eq.value + 2..];
      var end := Find(after, '"');
      if end.None? then None
      else
        var more := TrimStart(after[end.value + 1..]);
        if more != "" && more[0] != ',' then None
        else Some((Trim(rest[..eq.value]), after[..end.value], if more == "" then "" else TrimStart(more[1..])))
  }

  /** Fills the slot of a known parameter, which must still be empty. */
  function Enter(s: Slots, name: string, value: string): Option<Slots> {
    if name == "keyId" then (if s.keyId.Some? then None else Some(s.(keyId := Some(value))))
    else if name == "algorithm" then (if s.algorithm.Some? then None else Some(s.(algorithm := Some(value))))
    else if name == "headers" then (if s.headers.Some? then None else Some(s.(headers := Some(value))))
    else if name == "signature" then (if s.signature.Some? then None else Some(s.(signature := Some(value))))
    else Some(s)
  }

  function Scan(rest: string, s: Slots): Option<Slots>
    decreases |rest|
  {
    if rest == "" then Some(s)
    else
      var one := ScanOne(rest);
      if one.None? then None
      else
        var entered := Enter(s, one.value.0, one.value.1);
        if entered.None? then None else Scan(one.value.2, entered.value)
  }

  function HeaderNames(headers: Option<string>): seq<string> {
    if headers.None? then ["date"] else LowerAll(Words(headers.value, ""))
  }

  function Unescaped(signature: string): Option<string> {
    if '%' in signature then PercentDecoded(signature) else Some(signature)
  }

  function Finish(s: Slots): Option<Params> {
    if s.keyId.None? || s.keyId.value == "" || s.algorithm.None? || s.algorithm.value == "" then None
    else if HeaderNames(s.headers) == [] || s.signature.None? || Unescaped(s.signature.value).None? then None
    else
      var bytes := Decode(Unescaped(s.signature.value).value);
      if bytes.None? then None else Some(Params(s.keyId.value, s.algorithm.value, HeaderNames(s.headers), bytes.value))
  }

  const SCHEME := "signature "

  function Parsed(value: string): Option<Params> {
    var t := Trim(value);
    if |t| < 10 || ToLower(t[..10]) != SCHEME then None
    else
      var slots := Scan(TrimStart(t[10..]), NO_SLOTS);
      if slots.None? then None else Finish(slots.value)
  }

  /** Reads pair after pair; the remainder shrinks with every one. */
  method ScanPairs(text: string) returns (r: Option<Slots>)
    ensures r == Scan(text, NO_SLOTS)
  {
    var rest, slots := text, NO_SLOTS;
    while rest != ""
      invariant Scan(text, NO_SLOTS) == Scan(rest, slots)
      decreases |rest|
    {
      var eq := Find(rest, '=');
      if eq.None? || eq.value + 1 >= |rest| || rest[eq.value + 1] != '"' {
        return None;
      }
      var name := Trim(rest[..eq.value]);
      var after := rest[eq.value + 2..];
      var end := Find(after, '"');
      if end.None? {
        return None;
      }
      var val := after[..end.value];
      var more := TrimStart(after[end.value + 1..]);
      if more != "" && more[0] != ',' {
        return None;
      }
      ghost var was := rest;
      rest := if more == "" then "" else TrimStart(more[1..]);
      assert ScanOne(was) == Some((name, val, rest));
      var entered := Enter(slots, name, val);
      if entered.None? {
        return None;
      }
      slots := entered.value;
    }
    r := Some(slots);
  }

  /** Parses the header: required parameters present and non-empty, known
      ones at most once, unknown ones skipped. */
  method ParseSignatureHeader(value: string) returns (r: Option<Params>)
    ensures r == Parsed(value)
  {
    var t := Trim(value);
    if |t| < 10 || ToLower(t[..10]) != SCHEME {
      return None;
    }
    var scanned := ScanPairs(TrimStart(t[10..]));
    if scanned.None? {
      return None;
    }
    var slots := scanned.value;
    if slots.keyId.None? || slots.keyId.value == "" || slots.algorithm.None? || slots.algorithm.value == "" {
      return None;
    }
    var names := HeaderNames(slots.headers);
    if names == [] || slots.signature.None? {
      return None;
    }
    var text := Some(slots.signature.value);
    if '%' in slots.signature.value {
      text := PercentDecode(slots.signature.value);
    }
    if text.None? {
      return None;
    }
    var bytes := Decode(text.value);
    r := if bytes.None? then None else Some(Params(slots.keyId.value, slots.algorithm.value, names, bytes.value));
  }

  // ----- printing

  /** A parameter as it may be written: white space around the name, after
      the value, and (when another follows) around the comma. */
  datatype Piece = Piece(before: string, name: string, inner: string, value: string, after: string)

  predicate Tight(s: string) {
    s != "" ==> !IsSpace(s[0]) && !IsSpace(s[|s| - 1])
  }

  predicate ValidPiece(p: Piece) {
    && Blank(p.before) && Blank(p.inner) && Blank(p.after)
    && Tight(p.name) && '=' !in p.name && (p.name == "" ==> p.inner == "") && '"' !in p.value
  }

  function RenderPiece(p: Piece): string {
    p.before + (p.name + p.inner + ['='] + (['"'] + (p.value + (['"'] + p.after))))
  }

  /** Pieces between commas; a comma may also end the list. */
  function RenderPieces(ps: seq<Piece>, comma: bool): string
    decreases |ps|, 1
  {
    if ps == [] then "" else RenderPiece(ps[0]) + Rest(ps, comma)
  }

  /** What follows the first piece. */
  function Rest(ps: seq<Piece>, comma: bool): string
    requires ps != []
    decreases |ps|, 0
  {
    if |ps| > 1 then [','] + RenderPieces(ps[1..], comma) else if comma then [','] else ""
  }

  /** What the pieces fill in, in order. */
  function EnterAll(s: Slots, ps: seq<Piece>): Option<Slots>
    decreases |ps|
  {
    if ps == [] then Some(s)
    else
      var entered := Enter(s, ps[0].name, ps[0].value);
      if entered.None? then None else EnterAll(entered.value, ps[1..])
  }

  lemma {:induction false} TrimStartBlank(b: string, s: string)
    requires Blank(b)
    ensures TrimStart(b + s) == TrimStart(s)
  {
    if b == "" {
      assert b + s == s;
    } else {
      assert (b + s)[1..] == b[1..] + s;
      TrimStartBlank(b[1..], s);
    }
  }

  lemma {:induction false} TrimEndBlank(s: string, b: string)
    requires Blank(b)
    ensures TrimEnd(s + b) == TrimEnd(s)
  {
    if b == "" {
      assert s + b == s;
    } else {
      assert (s + b)[..|s + b| - 1] == s + b[..|b| - 1];
      TrimEndBlank(s, b[..|b| - 1]);
    }
  }

  lemma {:induction false} TrimTight(s: string)
    requires Tight(s)
    ensures Trim(s) == s
  {
  }

  lemma {:induction false} TrimName(name: string, inner: string)
    requires Tight(name) && Blank(inner) && (name == "" ==> inner == "")
    ensures Trim(name + inner) == name
  {
    if name != "" {
      assert (name + inner)[0] == name[0];
      TrimEndBlank(name, inner);
    }
  }

  lemma {:induction false} FindAt(a: string, c: char, b: string)
    requires c !in a
    ensures Find(a + [c] + b, c) == Some(|a|)
  {
    var s := a + [c] + b;
    assert s[|a|] == c && forall j :: 0 <= j < |a| ==> s[j] == a[j];
  }

  /** One step on text cut at its first equals sign and closing quote. */
  lemma {:induction false} ScanAt(head: string, value: string, y: string)
    requires '=' !in head && '"' !in value
    ensures var rest := head + ['='] + (['"'] + (value + ['"'] + y));
            var more := TrimStart(y);
            ScanOne(rest) == if more != "" && more[0] != ',' then None
                             else Some((Trim(head), value, if more == "" then "" else TrimStart(more[1..])))
  {
    var x := value + ['"'] + y;
    var rest := head + ['='] + (['"'] + x);
    FindAt(head, '=', ['"'] + x);
    Parts(head, '=', ['"'] + x);
    AfterQuote(rest, |head|, x);
    FindAt(value, '"', y);
    Parts(value, '"', y);
  }

  /** The scanner reads a printed piece and stops where the next begins. */
  lemma {:induction false} ScanPiece(p: Piece, more: string)
    requires ValidPiece(p) && p.before == "" && (more == "" || more[0] == ',')
    ensures ScanOne(RenderPiece(p) + more) ==
            Some((p.name, p.value, if more == "" then "" else TrimStart(more[1..])))
  {
    PieceText(p, more);
    NoEquals(p);
    ScanAt(p.name + p.inner, p.value, p.after + more);
    TrimName(p.name, p.inner);
    TrimStartBlank(p.after, more);
    assert more != "" ==> !IsSpace(more[0]);
  }

  lemma Parts(a: string, c: char, b: string)
    ensures (a + [c] + b)[..|a|] == a && (a + [c] + b)[|a|] == c && (a + [c] + b)[|a| + 1..] == b
  {
  }

  lemma AfterQuote(rest: string, n: nat, x: string)
    requires n < |rest| && rest[n + 1..] == ['"'] + x
    ensures n + 1 < |rest| && rest[n + 1] == '"' && rest[n + 2..] == x
  {
    assert |rest[n + 1..]| == 1 + |x|;
    assert rest[n + 1..][0] == '"' && rest[n + 1..][1..] == x;
    assert rest[n + 2..] == rest[n + 1..][1..];
  }

  lemma PieceText(p: Piece, more: string)
    requires p.before == ""
    ensures RenderPiece(p) + more == p.name + p.inner + ['='] + (['"'] + (p.value + ['"'] + (p.after + more)))
  {
  }

  lemma NoEquals(p: Piece)
    requires ValidPiece(p)
    ensures '=' !in p.name + p.inner
  {
  }

  lemma {:induction false} ScanPieces(ps: seq<Piece>, comma: bool, s: Slots)
    requires forall i :: 0 <= i < |ps| ==> ValidPiece(ps[i])
    ensures Scan(TrimStart(RenderPieces(ps, comma)), s) == EnterAll(s, ps)
    decreases |ps|
  {
    if ps != [] {
      var p := ps[0].(before := "");
      var more := Rest(ps, comma);
      FirstPiece(ps, comma);
      ScanPiece(p, more);
      if |ps| > 1 {
        assert more[1..] == RenderPieces(ps[1..], comma);
      } else {
        assert ps[1..] == [] && TrimStart("") == "" && (comma ==> more[1..] == "");
      }
      if Enter(s, p.name, p.value).Some? {
        ScanPieces(ps[1..], comma, Enter(s, p.name, p.value).value);
      }
    }
  }

  lemma {:induction false} FirstPiece(ps: seq<Piece>, comma: bool)
    requires ps != [] && ValidPiece(ps[0])
    ensures var text := RenderPiece(ps[0].(before := "")) + Rest(ps, comma);
            TrimStart(RenderPieces(ps, comma)) == text && text != "" && !IsSpace(text[0])
  {
    var p := ps[0].(before := "");
    var more := Rest(ps, comma);
    BeforePiece(ps[0], more);
    HeadPiece(p, more);
    TrimStartBlank(ps[0].before, RenderPiece(p) + more);
  }

  lemma BeforePiece(q: Piece, more: string)
    ensures RenderPiece(q) + more == q.before + (RenderPiece(q.(before := "")) + more)
  {
    assert RenderPiece(q) == q.before + RenderPiece(q.(before := ""));
  }

  lemma HeadPiece(p: Piece, more: string)
    requires p.before == "" && ValidPiece(p)
    ensures (RenderPiece(p) + more)[0] == if p.name == "" then '=' else p.name[0]
  {
    PieceText(p, more);
  }

  // ----- what the slots end up holding

  const KNOWN: seq<string> := ["keyId", "algorithm", "headers", "signature"]

  function Slot(s: Slots, n: string): Option<string> {
    if n == "keyId" then s.keyId
    else if n == "algorithm" then s.algorithm
    else if n == "headers" then s.headers
    else if n == "signature" then s.signature
    else None
  }

  function Count(ps: seq<Piece>, n: string): nat {
    if ps == [] then 0 else (if ps[0].name == n then 1 else 0) + Count(ps[1..], n)
  }

  /** The value of the first piece named `n`. */
  function ValueOf(ps: seq<Piece>, n: string): Option<string> {
    if ps == [] then None else if ps[0].name == n then Some(ps[0].value) else ValueOf(ps[1..], n)
  }

  lemma EnterSlot(s: Slots, name: string, value: string, n: string)
    requires n in KNOWN
    ensures Enter(s, name, value).None? <==> name in KNOWN && Slot(s, name).Some?
    ensures Enter(s, name, value).Some? ==> Slot(Enter(s, name, value).value, n) == if n == name then Some(value) else Slot(s, n)
  {
  }

  /** No known parameter appears twice, counting what is already there. */
  ghost predicate Unambiguous(s: Slots, ps: seq<Piece>) {
    forall n :: n in KNOWN ==> Count(ps, n) <= if Slot(s, n).Some? then 0 else 1
  }

  /** Pieces are accepted exactly when no known parameter repeats, and then
      every slot holds the value its piece gave. */
  lemma {:induction false} EnterExact(s: Slots, ps: seq<Piece>)
    ensures EnterAll(s, ps).Some? <==> Unambiguous(s, ps)
    ensures EnterAll(s, ps).Some? ==>
              forall n :: n in KNOWN ==> Slot(EnterAll(s, ps).value, n) == if Slot(s, n).Some? then Slot(s, n) else ValueOf(ps, n)
    decreases |ps|
  {
    if ps != [] {
      var name, value := ps[0].name, ps[0].value;
      var entered := Enter(s, name, value);
      forall n | n in KNOWN
        ensures entered.None? <==> name in KNOWN && Slot(s, name).Some?
        ensures entered.Some? ==> Slot(entered.value, n) == if n == name then Some(value) else Slot(s, n)
      {
        EnterSlot(s, name, value, n);
      }
      EnterSlot(s, name, value, "keyId");
      if entered.Some? {
        EnterExact(entered.value, ps[1..]);
      }
    }
  }

  // ----- header lists and escaped signatures

  /** A word and the white space before it. */
  datatype Word = Word(pad: string, text: string)

  predicate ValidWords(ws: seq<Word>) {
    forall i :: 0 <= i < |ws| ==>
      && Blank(ws[i].pad) && (i > 0 ==> ws[i].pad != "")
      && ws[i].text != "" && (forall j :: 0 <= j < |ws[i].text| ==> !IsSpace(ws[i].text[j]) && !('A' <= ws[i].text[j] <= 'Z'))
  }

  function Spaced(ws: seq<Word>, end: string): string {
    if ws == [] then end else ws[0].pad + (ws[0].text + Spaced(ws[1..], end))
  }

  function Listed(ws: seq<Word>): seq<string> {
    seq(|ws|, i requires 0 <= i < |ws| => ws[i].text)
  }

  lemma {:induction false} SkipBlank(b: string, s: string)
    requires Blank(b)
    ensures Words(b + s, "") == Words(s, "")
  {
    if b == "" {
      assert b + s == s;
    } else {
      assert (b + s)[1..] == b[1..] + s;
      SkipBlank(b[1..], s);
    }
  }

  lemma {:induction false} ReadWord(w: string, s: string, cur: string)
    requires forall j :: 0 <= j < |w| ==> !IsSpace(w[j])
    ensures Words(w + s, cur) == Words(s, cur + w)
    decreases |w|
  {
    if w == "" {
      assert w + s == s && cur + w == cur;
    } else {
      assert (w + s)[1..] == w[1..] + s && (w + s)[0] == w[0];
      ReadWord(w[1..], s, cur + [w[0]]);
      assert cur + [w[0]] + w[1..] == cur + w;
    }
  }

  lemma {:induction false} EndWord(w: string, s: string)
    requires w != "" && (s == "" || IsSpace(s[0]))
    ensures Words(s, w) == [w] + Words(s, "")
  {
    if s != "" {
      assert Words(s, "") == [] + Words(s[1..], "");
    }
  }

  lemma {:induction false} WordsTrip(ws: seq<Word>, end: string)
    requires ValidWords(ws) && Blank(end)
    ensures Words(Spaced(ws, end), "") == Listed(ws)
    decreases |ws|
  {
    if ws == [] {
      assert end + "" == end;
      SkipBlank(end, "");
    } else {
      var rest := Spaced(ws[1..], end);
      assert forall i :: 0 <= i < |ws[1..]| ==> ws[1..][i] == ws[i + 1];
      WordsTrip(ws[1..], end);
      SkipBlank(ws[0].pad, ws[0].text + rest);
      ReadWord(ws[0].text, rest, "");
      assert "" + ws[0].text == ws[0].text;
      assert rest == "" || IsSpace(rest[0]) by {
        if |ws| > 1 {
          assert rest[0] == ws[1].pad[0];
        }
      }
      EndWord(ws[0].text, rest);
      assert Listed(ws) == [ws[0].text] + Listed(ws[1..]);
    }
  }

  lemma {:induction false} ListTrip(ws: seq<Word>, end: string)
    requires ValidWords(ws) && Blank(end)
    ensures HeaderNames(Some(Spaced(ws, end))) == Listed(ws)
  {
    WordsTrip(ws, end);
    forall i | 0 <= i < |ws| ensures ToLower(ws[i].text) == ws[i].text {
    }
    assert LowerAll(Listed(ws)) == Listed(ws);
  }

  datatype Style = Raw | Upper | Small

  function HexChar(n: nat, style: Style): char
    requires n < 16
  {
    if n < 10 then '0' + n as char else if style == Upper then 'A' + (n - 10) as char else 'a' + (n - 10) as char
  }

  function Styled(c: char, style: Style): string
    requires c as int < 256
  {
    if style == Raw then [c] else ['%', HexChar(c as int / 16, style), HexChar(c as int % 16, style)]
  }

  /** A signature with some characters percent-encoded. */
  function Percent(s: string, styles: seq<Style>): string
    requires |s| == |styles| && forall i :: 0 <= i < |s| ==> s[i] as int < 128
  {
    if s == "" then "" else Styled(s[0], styles[0]) + Percent(s[1..], styles[1..])
  }

  lemma HexTrip(n: nat, style: Style)
    requires n < 16
    ensures HexDigit(HexChar(n, style)) == Some(n) && HexChar(n, style) != '+'
  {
  }

  lemma {:induction false} PercentTrip(s: string, styles: seq<Style>)
    requires |s| == |styles| && (forall i :: 0 <= i < |s| ==> s[i] as int < 128) && '%' !in s
    ensures PercentDecoded(Percent(s, styles)) == Some(s)
    ensures '%' !in Percent(s, styles) ==> Percent(s, styles) == s
    decreases |s|
  {
    if s != "" {
      PercentTrip(s[1..], styles[1..]);
      assert s == [s[0]] + s[1..];
      StyledTrip(s[0], styles[0], Percent(s[1..], styles[1..]));
      assert styles[0] != Raw ==> Percent(s, styles)[0] == '%';
    }
  }

  /** One character, as it is or escaped, is read back before what follows. */
  lemma {:induction false} StyledTrip(c: char, style: Style, rest: string)
    requires c as int < 128 && c != '%'
    ensures PercentDecoded(Styled(c, style) + rest) == Prepend([c], PercentDecoded(rest))
  {
    var t := Styled(c, style) + rest;
    if style == Raw {
      assert t[0] == c && t[1..] == rest;
    } else {
      HexTrip(c as int / 16, style);
      HexTrip(c as int % 16, style);
      assert t[0] == '%' && t[1] == HexChar(c as int / 16, style) && t[2] == HexChar(c as int % 16, style) && t[3..] == rest;
    }
  }

  lemma {:induction false} SignatureTrip(bytes: Bytes, styles: seq<Style>)
    requires |styles| == |Encode(bytes)|
    ensures forall i :: 0 <= i < |Encode(bytes)| ==> Encode(bytes)[i] as int < 128
    ensures Unescaped(Percent(Encode(bytes), styles)).Some? && Decode(Unescaped(Percent(Encode(bytes), styles)).value) == Some(bytes)
  {
    EncodedChars(bytes);
    forall i | 0 <= i < |Encode(bytes)| ensures Encode(bytes)[i] as int < 128 && Encode(bytes)[i] != '%' {
      assert Encode(bytes)[i] in Encode(bytes);
    }
    PercentTrip(Encode(bytes), styles);
    Trip(bytes);
  }

  // ----- whole headers

  /** A header value: scheme, pieces, and white space at both ends. */
  datatype Written = Written(lead: string, scheme: string, pieces: seq<Piece>, comma: bool, trail: string)

  function Header(w: Written): string {
    w.lead + (w.scheme + RenderPieces(w.pieces, w.comma) + w.trail)
  }

  predicate ValidHeader(w: Written) {
    && Blank(w.lead) && Blank(w.trail) && |w.scheme| == 10 && ToLower(w.scheme) == SCHEME
    && ValidPieces(w.pieces, w.comma)
  }

  /** Valid pieces whose text does not end in white space. */
  predicate ValidPieces(ps: seq<Piece>, comma: bool) {
    ps != [] && (comma || ps[|ps| - 1].after == "") && forall i :: 0 <= i < |ps| ==> ValidPiece(ps[i])
  }

  lemma {:induction false} EndsTight(ps: seq<Piece>, comma: bool)
    requires ps != [] && (comma || ps[|ps| - 1].after == "")
    ensures var t := RenderPieces(ps, comma); t != "" && !IsSpace(t[|t| - 1])
    decreases |ps|
  {
    if |ps| > 1 {
      EndsTight(ps[1..], comma);
    }
  }

  lemma {:induction false} TrimAround(lead: string, core: string, trail: string)
    requires Blank(lead) && Blank(trail) && core != "" && !IsSpace(core[0]) && !IsSpace(core[|core| - 1])
    ensures Trim(lead + (core + trail)) == core
  {
    TrimStartBlank(lead, core + trail);
    assert (core + trail)[0] == core[0];
    TrimEndBlank(core, trail);
  }

  lemma {:induction false} TrimHeader(w: Written)
    requires ValidHeader(w)
    ensures Trim(Header(w)) == w.scheme + RenderPieces(w.pieces, w.comma)
  {
    var text := RenderPieces(w.pieces, w.comma);
    EndsTight(w.pieces, w.comma);
    assert ToLower(w.scheme)[0] == 's' && !IsSpace(w.scheme[0]);
    assert (w.scheme + text)[0] == w.scheme[0] && (w.scheme + text)[|w.scheme + text| - 1] == text[|text| - 1];
    TrimAround(w.lead, w.scheme + text, w.trail);
  }

  /** Every well-formed header parses as its pieces say. */
  lemma {:induction false} ParsesPieces(w: Written)
    requires ValidHeader(w)
    ensures Parsed(Header(w)) ==
            if EnterAll(NO_SLOTS, w.pieces).None? then None else Finish(EnterAll(NO_SLOTS, w.pieces).value)
  {
    TrimHeader(w);
    var t := w.scheme + RenderPieces(w.pieces, w.comma);
    assert t[..10] == w.scheme && t[10..] == RenderPieces(w.pieces, w.comma);
    ScanPieces(w.pieces, w.comma, NO_SLOTS);
  }

  /** A repeated known parameter makes the header malformed, wherever the
      repetition stands and whatever else the header holds. */
  lemma {:induction false} RepeatsFail(w: Written, n: string)
    requires ValidHeader(w) && n in KNOWN && Count(w.pieces, n) > 1
    ensures Parsed(Header(w)) == None
  {
    ParsesPieces(w);
    EnterExact(NO_SLOTS, w.pieces);
  }

  // ----- every accepted text is a written one

  lemma {:induction false} TrimStartSplits(s: string) returns (b: string)
    ensures Blank(b) && s == b + TrimStart(s)
    ensures TrimStart(s) != "" ==> !IsSpace(TrimStart(s)[0])
  {
    if s != "" && IsSpace(s[0]) {
      b := TrimStartSplits(s[1..]);
      b := [s[0]] + b;
      assert s == [s[0]] + s[1..];
    } else {
      b := "";
    }
  }

  lemma {:induction false} TrimEndSplits(s: string) returns (b: string)
    ensures Blank(b) && s == TrimEnd(s) + b
    ensures TrimEnd(s) != "" ==> !IsSpace(TrimEnd(s)[|TrimEnd(s)| - 1]) && TrimEnd(s)[0] == s[0]
  {
    if s != "" && IsSpace(s[|s| - 1]) {
      b := TrimEndSplits(s[..|s| - 1]);
      b := b + [s[|s| - 1]];
      assert s == s[..|s| - 1] + [s[|s| - 1]];
    } else {
      b := "";
      assert s + "" == s;
    }
  }

  /** A name and the white space after it. */
  lemma {:induction false} NameSplits(head: string) returns (name: string, inner: string)
    requires head == "" || !IsSpace(head[0])
    ensures head == name + inner && name == Trim(head) && Tight(name) && Blank(inner) && (name == "" ==> inner == "")
  {
    inner := TrimEndSplits(head);
    name := TrimEnd(head);
    assert TrimStart(head) == head;
  }

  /** Text cut where a character first stands. */
  lemma {:induction false} CutAtFound(s: string, c: char) returns (a: string, b: string)
    requires Find(s, c).Some?
    ensures c !in a && s == a + [c] + b && |a| == Find(s, c).value && b == s[|a| + 1..]
  {
    var i := Find(s, c).value;
    a, b := s[..i], s[i + 1..];
  }

  /** The parts of one scanned pair. */
  lemma {:induction false} StepParts(rest: string) returns (head: string, value: string, y: string)
    requires ScanOne(rest).Some?
    ensures '=' !in head && '"' !in value && rest == head + ['='] + (['"'] + (value + ['"'] + y))
  {
    var after;
    head, after := CutAtFound(rest, '=');
    assert after[0] == rest[|head| + 1] && after[1..] == rest[|head| + 2..];
    value, y := CutAtFound(after[1..], '"');
    assert after == [after[0]] + after[1..];
  }

  /** A step of the scanner reads one piece. */
  lemma {:induction false} StepWritten(rest: string) returns (p: Piece, more: string)
    requires rest != "" && !IsSpace(rest[0]) && ScanOne(rest).Some?
    ensures ValidPiece(p) && p.before == "" && rest == RenderPiece(p) + more
    ensures ScanOne(rest).value.0 == p.name && ScanOne(rest).value.1 == p.value
    ensures if more == "" then ScanOne(rest).value.2 == "" else more[0] == ',' && ScanOne(rest).value.2 == TrimStart(more[1..])
  {
    var head, value, y := StepParts(rest);
    ScanAt(head, value, y);
    assert head != "" ==> head[0] == rest[0];
    var name, inner := NameSplits(head);
    var pad := TrimStartSplits(y);
    more := TrimStart(y);
    p := Piece("", name, inner, value, pad);
    assert forall c :: c in name ==> c in head;
    PieceText(p, more);
  }

  /** One piece before others, with white space after its comma. */
  lemma {:induction false} Joined(p: Piece, pad: string, qs: seq<Piece>, comma: bool) returns (ps: seq<Piece>)
    requires ValidPiece(p) && p.before == "" && Blank(pad) && ValidPieces(qs, comma) && qs[0].before == ""
    ensures ValidPieces(ps, comma) && ps[0].before == ""
    ensures RenderPieces(ps, comma) == RenderPiece(p) + ([','] + (pad + RenderPieces(qs, comma)))
  {
    var tail := Padded(qs, comma, pad);
    ps := [p] + tail;
    assert ps[1..] == tail && ps[|ps| - 1] == tail[|tail| - 1];
    assert forall i :: 0 < i < |ps| ==> ps[i] == tail[i - 1];
  }

  lemma {:induction false} Padded(qs: seq<Piece>, comma: bool, pad: string) returns (rs: seq<Piece>)
    requires ValidPieces(qs, comma) && qs[0].before == "" && Blank(pad)
    ensures ValidPieces(rs, comma) && RenderPieces(rs, comma) == pad + RenderPieces(qs, comma)
  {
    rs := [qs[0].(before := pad)] + qs[1..];
    assert rs[1..] == qs[1..];
    BeforePiece(rs[0], Rest(rs, comma));
    assert forall i :: 0 < i < |rs| ==> rs[i] == qs[i];
    assert rs[|rs| - 1].after == qs[|qs| - 1].after;
  }

  /** Text the scanner reads to the end is a list of pieces. */
  lemma {:induction false} ScannedIsWritten(rest: string, s: Slots) returns (ps: seq<Piece>, comma: bool)
    requires rest != "" && !IsSpace(rest[0]) && !IsSpace(rest[|rest| - 1]) && Scan(rest, s).Some?
    ensures ValidPieces(ps, comma) && rest == RenderPieces(ps, comma) && ps[0].before == ""
    decreases |rest|
  {
    var p, more := StepWritten(rest);
    if more == "" {
      ps, comma := [p], false;
      assert rest == RenderPiece(p);
      LastBlank(p);
    } else {
      var pad := TrimStartSplits(more[1..]);
      var next := TrimStart(more[1..]);
      MoreEnds(rest, RenderPiece(p), more, pad, next);
      if next == "" {
        ps, comma := [p], true;
      } else {
        var qs, c := ScannedIsWritten(next, Enter(s, p.name, p.value).value);
        ps := Joined(p, pad, qs, c);
        comma := c;
      }
    }
  }

  /** How text that does not end in white space goes on after a comma. */
  lemma MoreEnds(rest: string, head: string, more: string, pad: string, next: string)
    requires rest == head + more && more != "" && more[0] == ',' && more[1..] == pad + next && Blank(pad)
    requires !IsSpace(rest[|rest| - 1])
    ensures more == [','] + (pad + next)
    ensures next == "" ==> more == [',']
    ensures next != "" ==> !IsSpace(next[|next| - 1])
  {
    assert more == [','] + more[1..];
    assert rest[|rest| - 1] == more[|more| - 1];
    assert |more| > 1 ==> more[|more| - 1] == (pad + next)[|more| - 2];
  }

  lemma {:induction false} LastBlank(p: Piece)
    requires ValidPiece(p) && !IsSpace(RenderPiece(p)[|RenderPiece(p)| - 1])
    ensures p.after == ""
  {
  }

  /** Every required parameter is there and readable. */
  ghost predicate Readable(ps: seq<Piece>) {
    && ValueOf(ps, "keyId") !in [None, Some("")]
    && ValueOf(ps, "algorithm") !in [None, Some("")]
    && HeaderNames(ValueOf(ps, "headers")) != []
    && ValueOf(ps, "signature").Some? && Unescaped(ValueOf(ps, "signature").value).Some?
    && Decode(Unescaped(ValueOf(ps, "signature").value).value).Some?
  }

  /** What makes the pieces of a header acceptable. */
  ghost predicate Acceptable(ps: seq<Piece>) {
    Unambiguous(NO_SLOTS, ps) && Readable(ps)
  }

  lemma {:induction false} FinishExact(slots: Slots, ps: seq<Piece>)
    requires slots.keyId == ValueOf(ps, "keyId") && slots.algorithm == ValueOf(ps, "algorithm")
    requires slots.headers == ValueOf(ps, "headers") && slots.signature == ValueOf(ps, "signature")
    ensures Finish(slots).Some? <==> Readable(ps)
  {
  }

  lemma {:induction false} PiecesAccepted(w: Written)
    requires ValidHeader(w)
    ensures Parsed(Header(w)).Some? <==> Acceptable(w.pieces)
  {
    ParsesPieces(w);
    EnterExact(NO_SLOTS, w.pieces);
    if EnterAll(NO_SLOTS, w.pieces).Some? {
      SlotsHold(EnterAll(NO_SLOTS, w.pieces).value, w.pieces);
      FinishExact(EnterAll(NO_SLOTS, w.pieces).value, w.pieces);
    }
  }

  lemma {:induction false} SlotsHold(slots: Slots, ps: seq<Piece>)
    requires forall n :: n in KNOWN ==> Slot(slots, n) == ValueOf(ps, n)
    ensures slots.keyId == ValueOf(ps, "keyId") && slots.algorithm == ValueOf(ps, "algorithm")
    ensures slots.headers == ValueOf(ps, "headers") && slots.signature == ValueOf(ps, "signature")
  {
    assert KNOWN[0] == "keyId" && KNOWN[1] == "algorithm" && KNOWN[2] == "headers" && KNOWN[3] == "signature";
    assert slots.keyId == Slot(slots, KNOWN[0]) && slots.algorithm == Slot(slots, KNOWN[1]);
    assert slots.headers == Slot(slots, KNOWN[2]) && slots.signature == Slot(slots, KNOWN[3]);
  }

  lemma {:induction false} TrimSplits(value: string) returns (lead: string, trail: string)
    ensures Blank(lead) && Blank(trail) && value == lead + (Trim(value) + trail)
    ensures Trim(value) != "" ==> !IsSpace(Trim(value)[|Trim(value)| - 1])
  {
    lead := TrimStartSplits(value);
    trail := TrimEndSplits(TrimStart(value));
  }

  /** Scheme and pieces of a trimmed text the scanner accepts. */
  lemma {:induction false} TrimmedIsWritten(t: string) returns (qs: seq<Piece>, comma: bool)
    requires |t| >= 10 && ToLower(t[..10]) == SCHEME && !IsSpace(t[|t| - 1])
    requires Scan(TrimStart(t[10..]), NO_SLOTS).Some?
    ensures ValidPieces(qs, comma) && t[10..] == RenderPieces(qs, comma)
  {
    var pad := TrimStartSplits(t[10..]);
    var rest := TrimStart(t[10..]);
    TailTight(t, pad, rest);
    var ps, c := ScannedIsWritten(rest, NO_SLOTS);
    qs := Padded(ps, c, pad);
    comma := c;
  }

  lemma {:induction false} ParsedIsWritten(value: string) returns (w: Written)
    requires Parsed(value).Some?
    ensures ValidHeader(w) && value == Header(w)
  {
    var t := Trim(value);
    var lead, trail := TrimSplits(value);
    var qs, comma := TrimmedIsWritten(t);
    w := Written(lead, t[..10], qs, comma, trail);
    assert t == t[..10] + t[10..];
  }

  /** Behind the scheme of a trimmed text something is left to scan. */
  lemma {:induction false} TailTight(t: string, pad: string, rest: string)
    requires |t| >= 10 && ToLower(t[..10]) == SCHEME && t[10..] == pad + rest && Blank(pad)
    requires !IsSpace(t[|t| - 1])
    ensures rest != "" && !IsSpace(rest[|rest| - 1])
  {
    assert ToLower(t[..10])[9] == ' ' && Lower(t[9]) == ' ';
    assert |t| > 10 ==> t[|t| - 1] == t[10..][|t| - 11] == (pad + rest)[|t| - 11];
    assert rest == "" ==> |t| == 10 + |pad|;
  }

  /** The scanner accepts exactly the written headers, a trailing comma and
      empty unknown names included, in which no known parameter repeats, key
      id and algorithm are present and non-empty, a header list names at
      least one header, and the signature is present and decodes. */
  lemma {:induction false} AcceptedExactly(value: string)
    ensures Parsed(value).Some? <==> exists w :: ValidHeader(w) && value == Header(w) && Acceptable(w.pieces)
  {
    if Parsed(value).Some? {
      var w := ParsedIsWritten(value);
      PiecesAccepted(w);
    }
    if w :| ValidHeader(w) && value == Header(w) && Acceptable(w.pieces) {
      PiecesAccepted(w);
    }
  }

  /** `ps` spells out `p`: each required parameter once, `headers` once or,
      for the default list, not at all, and any unknown ones. */
  ghost predicate Spells(ps: seq<Piece>, p: Params, ws: seq<Word>, end: string, styles: seq<Style>) {
    && Count(ps, "keyId") == 1 && ValueOf(ps, "keyId") == Some(p.keyId) && p.keyId != ""
    && Count(ps, "algorithm") == 1 && ValueOf(ps, "algorithm") == Some(p.algorithm) && p.algorithm != ""
    && (if Count(ps, "headers") == 0 then p.headers == ["date"]
        else Count(ps, "headers") == 1 && ValidWords(ws) && Blank(end) && ws != [] && p.headers == Listed(ws)
             && ValueOf(ps, "headers") == Some(Spaced(ws, end)))
    && Count(ps, "signature") == 1 && |styles| == |Encode(p.signature)|
    && (forall i :: 0 <= i < |Encode(p.signature)| ==> Encode(p.signature)[i] as int < 128)
    && ValueOf(ps, "signature") == Some(Percent(Encode(p.signature), styles))
  }

  /** Printing and parsing round-trips: in any order, with any white space,
      unknown parameters and percent-encoding, the same parameters return. */
  lemma {:induction false} RoundTrip(w: Written, p: Params, ws: seq<Word>, end: string, styles: seq<Style>)
    requires ValidHeader(w) && Spells(w.pieces, p, ws, end, styles)
    ensures Parsed(Header(w)) == Some(p)
  {
    var ps := w.pieces;
    ParsesPieces(w);
    EnterExact(NO_SLOTS, ps);
    assert KNOWN[0] == "keyId" && KNOWN[1] == "algorithm" && KNOWN[2] == "headers" && KNOWN[3] == "signature";
    SlotsHold(EnterAll(NO_SLOTS, ps).value, ps);
    Absent(ps, "headers");
    SignatureTrip(p.signature, styles);
    if Count(ps, "headers") != 0 {
      ListTrip(ws, end);
    }
  }

  lemma {:induction false} Absent(ps: seq<Piece>, n: string)
    ensures Count(ps, n) == 0 <==> ValueOf(ps, n).None?
  {
    if ps != [] {
      Absent(ps[1..], n);
    }
  }
}
