/** The JSON texts (sections 2, 4, 5 and 7 of RFC 8259) that an autopilot plan is written in:
    objects, arrays and strings without escapes, with white space between tokens. */
module JsonText {
  import opened Prelude
  import opened Json

  // ---- reading ---------------------------------------------------------------------------------

  datatype Token = LBrace | RBrace | LBracket | RBracket | Colon | Comma | Text(s: string)

  predicate White(c: char) { c == ' ' || c == '\t' || c == '\n' || c == '\r' }

  /** A character that stands for itself in a JSON string. */
  predicate Plain(c: char) { c != '"' && c != '\\' && ' ' <= c }

  predicate Clean(s: string) { forall i :: 0 <= i < |s| ==> Plain(s[i]) }

  predicate Blank(s: string) { forall i :: 0 <= i < |s| ==> White(s[i]) }

  /** The characters of a string up to its closing quote, and what follows it. */
  function ReadString(s: string): (r: Option<(string, string)>)
    ensures r.Some? ==> |r.value.1| < |s|
    decreases |s|
  {
    if s == "" then None
    else if s[0] == '"' then Some(("", s[1..]))
    else if !Plain(s[0]) then None
    else
      var r := ReadString(s[1..]);
      if r.None? then None else Some(([s[0]] + r.value.0, r.value.1))
  }

  function Structural(c: char): (t: Option<Token>) {
    if c == '{' then Some(LBrace) else if c == '}' then Some(RBrace)
    else if c == '[' then Some(LBracket) else if c == ']' then Some(RBracket)
    else if c == ':' then Some(Colon) else if c == ',' then Some(Comma)
    else None
  }

  function Lex(s: string): (r: Option<seq<Token>>)
    decreases |s|
  {
    if s == "" then Some([])
    else if White(s[0]) then Lex(s[1..])
    else if s[0] == '"' then
      var str := ReadString(s[1..]);
      if str.None? then None else Put(Text(str.value.0), Lex(str.value.1))
    else if Structural(s[0]).Some? then Put(Structural(s[0]).value, Lex(s[1..]))
    else None
  }

  function Put(t: Token, r: Option<seq<Token>>): Option<seq<Token>> {
    if r.None? then None else Some([t] + r.value)
  }

  function ParseValue(ts: seq<Token>): (r: Option<(Json, seq<Token>)>)
    ensures r.Some? ==> |r.value.1| < |ts|
    decreases |ts|, 1
  {
    if ts == [] then None
    else match ts[0]
      case Text(s) => Some((Str(s), ts[1..]))
      case LBrace =>
        if |ts| > 1 && ts[1] == RBrace then Some((Obj(map[]), ts[2..])) else ParseFields(ts[1..], map[])
      case LBracket =>
        if |ts| > 1 && ts[1] == RBracket then Some((Arr([]), ts[2..])) else ParseItems(ts[1..], [])
      case _ => None
  }

  /** Members after an opening brace; a repeated key keeps its last value. */
  function ParseFields(ts: seq<Token>, m: map<string, Json>): (r: Option<(Json, seq<Token>)>)
    ensures r.Some? ==> |r.value.1| < |ts|
    decreases |ts|, 0
  {
    if |ts| < 2 || !ts[0].Text? || ts[1] != Colon then None
    else
      var v := ParseValue(ts[2..]);
      if v.None? || v.value.1 == [] then None
      else
        var m' := m[ts[0].s := v.value.0];
        var rest := v.value.1;
        if rest[0] == RBrace then Some((Obj(m'), rest[1..]))
        else if rest[0] == Comma then ParseFields(rest[1..], m')
        else None
  }

  function ParseItems(ts: seq<Token>, xs: seq<Json>): (r: Option<(Json, seq<Token>)>)
    ensures r.Some? ==> |r.value.1| < |ts|
    decreases |ts|, 2
  {
    var v := ParseValue(ts);
    if v.None? || v.value.1 == [] then None
    else
      var rest := v.value.1;
      if rest[0] == RBracket then Some((Arr(xs + [v.value.0]), rest[1..]))
      else if rest[0] == Comma then ParseItems(rest[1..], xs + [v.value.0])
      else None
  }

  /** A whole text is one value with nothing after it. */
  function Read(text: string): Option<Json> {
    var ts := Lex(text);
    if ts.None? then None
    else
      var v := ParseValue(ts.value);
      if v.Some? && v.value.1 == [] then Some(v.value.0) else None
  }

  // ---- writing ---------------------------------------------------------------------------------

  /** A document as it is laid out: each member has the white space before its key, and an object
      the white space before its closing brace. */
  datatype Doc = DStr(s: string) | DArr(items: Items) | DObj(fields: Fields, close: string)
  datatype Items = End | Item(value: Doc, rest: Items)
  datatype Fields = Nothing | Field(before: string, key: string, value: Doc, rest: Fields)

  function Quote(s: string): string { "\"" + s + "\"" }

  function Render(d: Doc): string {
    match d
    case DStr(s) => Quote(s)
    case DArr(items) => "[" + RenderItems(items) + "]"
    case DObj(fields, close) => "{" + RenderFields(fields) + close + "}"
  }

  function RenderItems(items: Items): string {
    match items
    case End => ""
    case Item(v, End) => Render(v)
    case Item(v, rest) => Render(v) + "," + RenderItems(rest)
  }

  function RenderFields(fs: Fields): string {
    match fs
    case Nothing => ""
    case Field(before, key, v, Nothing) => before + Quote(key) + ": " + Render(v)
    case Field(before, key, v, rest) => before + Quote(key) + ": " + Render(v) + "," + RenderFields(rest)
  }

  /** Strings are clean and layout is white. */
  predicate Legible(d: Doc) {
    match d
    case DStr(s) => Clean(s)
    case DArr(items) => LegibleItems(items)
    case DObj(fields, close) => LegibleFields(fields) && Blank(close)
  }

  predicate LegibleItems(items: Items) { items.Item? ==> Legible(items.value) && LegibleItems(items.rest) }

  predicate LegibleFields(fs: Fields) {
    fs.Field? ==> Blank(fs.before) && Clean(fs.key) && Legible(fs.value) && LegibleFields(fs.rest)
  }

  /** The value a document stands for. */
  function Value(d: Doc): Json {
    match d
    case DStr(s) => Str(s)
    case DArr(items) => Arr(Values(items))
    case DObj(fields, _) => Obj(Members(fields, map[]))
  }

  function Values(items: Items): seq<Json> {
    match items case End => [] case Item(v, rest) => [Value(v)] + Values(rest)
  }

  function Members(fs: Fields, m: map<string, Json>): map<string, Json> {
    match fs case Nothing => m case Field(_, key, v, rest) => Members(rest, m[key := Value(v)])
  }

  function Tokens(d: Doc): seq<Token> {
    match d
    case DStr(s) => [Text(s)]
    case DArr(items) => [LBracket] + TokensOfItems(items) + [RBracket]
    case DObj(fields, _) => [LBrace] + TokensOfFields(fields) + [RBrace]
  }

  function TokensOfItems(items: Items): seq<Token> {
    match items
    case End => []
    case Item(v, End) => Tokens(v)
    case Item(v, rest) => Tokens(v) + [Comma] + TokensOfItems(rest)
  }

  function TokensOfFields(fs: Fields): seq<Token> {
    match fs
    case Nothing => []
    case Field(_, key, v, Nothing) => [Text(key), Colon] + Tokens(v)
    case Field(_, key, v, rest) => [Text(key), Colon] + Tokens(v) + [Comma] + TokensOfFields(rest)
  }

  // ---- lexing undoes rendering -------------------------------------------------------------------

  function Prepend(ts: seq<Token>, r: Option<seq<Token>>): Option<seq<Token>> {
    if r.None? then None else Some(ts + r.value)
  }

  lemma {:induction false} ReadStringClean(s: string, rest: string)
    requires Clean(s)
    ensures ReadString(s + "\"" + rest) == Some((s, rest))
  {
    if s == "" {
      assert (s + "\"" + rest)[1..] == rest;
    } else {
      ReadStringClean(s[1..], rest);
      assert (s + "\"" + rest)[1..] == s[1..] + "\"" + rest;
      assert s == [s[0]] + s[1..];
    }
  }

  lemma LexQuote(s: string, rest: string)
    requires Clean(s)
    ensures Lex(Quote(s) + rest) == Put(Text(s), Lex(rest))
  {
    ReadStringClean(s, rest);
    assert (Quote(s) + rest)[1..] == s + "\"" + rest;
  }

  lemma {:induction false} LexBlank(w: string, rest: string)
    requires Blank(w)
    ensures Lex(w + rest) == Lex(rest)
    decreases |w|
  {
    if w == "" {
      assert w + rest == rest;
    } else {
      LexBlank(w[1..], rest);
      assert (w + rest)[1..] == w[1..] + rest;
    }
  }

  lemma LexMark(c: char, rest: string)
    requires Structural(c).Some?
    ensures Lex([c] + rest) == Put(Structural(c).value, Lex(rest))
  {
    assert ([c] + rest)[1..] == rest;
  }

  lemma PutPrepend(t: Token, ts: seq<Token>, r: Option<seq<Token>>)
    ensures Put(t, Prepend(ts, r)) == Prepend([t] + ts, r)
    ensures Prepend(ts, Put(t, r)) == Prepend(ts + [t], r)
  {
    if r.Some? {
      assert [t] + (ts + r.value) == ([t] + ts) + r.value;
      assert ts + ([t] + r.value) == (ts + [t]) + r.value;
    }
  }

  lemma PrependNothing(r: Option<seq<Token>>)
    ensures Prepend([], r) == r
  {
    if r.Some? { assert [] + r.value == r.value; }
  }

  lemma PrependTwice(a: seq<Token>, b: seq<Token>, r: Option<seq<Token>>)
    ensures Prepend(a, Prepend(b, r)) == Prepend(a + b, r)
  {
    if r.Some? { assert a + (b + r.value) == (a + b) + r.value; }
  }

  lemma {:induction false} LexDoc(d: Doc, rest: string)
    requires Legible(d)
    ensures Lex(Render(d) + rest) == Prepend(Tokens(d), Lex(rest))
    decreases d, 0
  {
    match d
    case DStr(s) =>
      LexQuote(s, rest);
    case DArr(items) =>
      var tail := "]" + rest;
      assert Render(d) + rest == ['['] + (RenderItems(items) + tail);
      LexMark('[', RenderItems(items) + tail);
      LexItems(items, tail);
      LexMark(']', rest);
      PutPrepend(RBracket, TokensOfItems(items), Lex(rest));
      PutPrepend(LBracket, TokensOfItems(items) + [RBracket], Lex(rest));
      assert Tokens(d) == [LBracket] + (TokensOfItems(items) + [RBracket]);
    case DObj(fields, close) =>
      var tail := "}" + rest;
      assert Render(d) + rest == ['{'] + (RenderFields(fields) + (close + tail));
      LexMark('{', RenderFields(fields) + (close + tail));
      LexFields(fields, close + tail);
      LexBlank(close, tail);
      LexMark('}', rest);
      PutPrepend(RBrace, TokensOfFields(fields), Lex(rest));
      PutPrepend(LBrace, TokensOfFields(fields) + [RBrace], Lex(rest));
      assert Tokens(d) == [LBrace] + (TokensOfFields(fields) + [RBrace]);
  }

  lemma {:induction false} LexItems(items: Items, rest: string)
    requires LegibleItems(items)
    ensures Lex(RenderItems(items) + rest) == Prepend(TokensOfItems(items), Lex(rest))
    decreases items
  {
    match items
    case End => PrependNothing(Lex(rest)); assert "" + rest == rest;
    case Item(v, End) => LexDoc(v, rest);
    case Item(v, more) =>
      var tail := "," + (RenderItems(more) + rest);
      assert RenderItems(items) + rest == Render(v) + tail;
      LexDoc(v, tail);
      LexMark(',', RenderItems(more) + rest);
      LexItems(more, rest);
      PutPrepend(Comma, TokensOfItems(more), Lex(rest));
      PrependTwice(Tokens(v), [Comma] + TokensOfItems(more), Lex(rest));
      assert TokensOfItems(items) == Tokens(v) + ([Comma] + TokensOfItems(more));
  }

  lemma {:induction false} LexFields(fs: Fields, rest: string)
    requires LegibleFields(fs)
    ensures Lex(RenderFields(fs) + rest) == Prepend(TokensOfFields(fs), Lex(rest))
    decreases fs
  {
    match fs
    case Nothing => PrependNothing(Lex(rest)); assert "" + rest == rest;
    case Field(before, key, v, Nothing) => LexField(before, key, v, rest);
    case Field(before, key, v, more) =>
      var tail := "," + (RenderFields(more) + rest);
      assert RenderFields(fs) + rest == before + Quote(key) + ": " + Render(v) + tail;
      LexField(before, key, v, tail);
      LexMark(',', RenderFields(more) + rest);
      LexFields(more, rest);
      PutPrepend(Comma, TokensOfFields(more), Lex(rest));
      PrependTwice([Text(key), Colon] + Tokens(v), [Comma] + TokensOfFields(more), Lex(rest));
      assert TokensOfFields(fs) == ([Text(key), Colon] + Tokens(v)) + ([Comma] + TokensOfFields(more));
  }

  lemma Regroup(a: string, b: string, c: string, d: string, e: string)
    ensures a + b + c + d + e == a + (b + (c + (d + e)))
  {
  }

  lemma LexColon(body: string)
    ensures Lex(": " + body) == Put(Colon, Lex(body))
  {
    var rest := " " + body;
    assert ": " + body == [':'] + rest;
    LexMark(':', rest);
    LexBlank(" ", body);
  }

  lemma LexName(before: string, key: string, tail: string)
    requires Blank(before) && Clean(key)
    ensures Lex(before + (Quote(key) + tail)) == Put(Text(key), Lex(tail))
  {
    LexBlank(before, Quote(key) + tail);
    LexQuote(key, tail);
  }

  lemma LexKeyed(before: string, key: string, text: string, rest: string)
    requires Blank(before) && Clean(key)
    ensures Lex(before + Quote(key) + ": " + text + rest) == Put(Text(key), Put(Colon, Lex(text + rest)))
  {
    LexName(before, key, ": " + (text + rest));
    LexColon(text + rest);
    Regroup(before, Quote(key), ": ", text, rest);
  }

  lemma PutField(key: string, ts: seq<Token>, r: Option<seq<Token>>)
    ensures Put(Text(key), Put(Colon, Prepend(ts, r))) == Prepend([Text(key), Colon] + ts, r)
  {
    PutPrepend(Colon, ts, r);
    PutPrepend(Text(key), [Colon] + ts, r);
    assert [Text(key)] + ([Colon] + ts) == [Text(key), Colon] + ts;
  }

  lemma {:induction false} LexField(before: string, key: string, v: Doc, rest: string)
    requires Blank(before) && Clean(key) && Legible(v)
    ensures Lex(before + Quote(key) + ": " + Render(v) + rest) == Prepend([Text(key), Colon] + Tokens(v), Lex(rest))
    decreases v, 1
  {
    LexDoc(v, rest);
    LexKeyed(before, key, Render(v), rest);
    PutField(key, Tokens(v), Lex(rest));
  }

  // ---- parsing undoes tokenising -----------------------------------------------------------------

  lemma {:induction false} ParseDoc(d: Doc, rest: seq<Token>)
    ensures ParseValue(Tokens(d) + rest) == Some((Value(d), rest))
    decreases d, 0
  {
    match d
    case DStr(s) => assert (Tokens(d) + rest)[1..] == rest;
    case DArr(items) => ParseArrDoc(items, rest);
    case DObj(fields, _) => ParseObjDoc(fields, rest);
  }

  lemma {:induction false} ParseArrDoc(items: Items, rest: seq<Token>)
    ensures ParseValue([LBracket] + TokensOfItems(items) + [RBracket] + rest) == Some((Arr(Values(items)), rest))
    decreases items, 1
  {
    var ts := [LBracket] + TokensOfItems(items) + [RBracket] + rest;
    if items.End? {
      assert ts[1] == RBracket && ts[2..] == rest;
    } else {
      assert ts[1..] == TokensOfItems(items) + ([RBracket] + rest);
      FirstOfItems(items);
      ParseItemsDoc(items, [], rest);
      assert [] + Values(items) == Values(items);
      assert ts[1] == TokensOfItems(items)[0];
    }
  }

  lemma {:induction false} ParseObjDoc(fields: Fields, rest: seq<Token>)
    ensures ParseValue([LBrace] + TokensOfFields(fields) + [RBrace] + rest) == Some((Obj(Members(fields, map[])), rest))
    decreases fields, 1
  {
    var ts := [LBrace] + TokensOfFields(fields) + [RBrace] + rest;
    if fields.Nothing? {
      assert ts[1] == RBrace && ts[2..] == rest;
    } else {
      assert ts[1..] == TokensOfFields(fields) + ([RBrace] + rest);
      assert ts[1] == Text(fields.key);
      ParseFieldsDoc(fields, map[], rest);
    }
  }

  lemma FirstOfItems(items: Items)
    requires items.Item?
    ensures TokensOfItems(items) != [] && TokensOfItems(items)[0] != RBracket
  {
    assert Tokens(items.value) != [];
  }

  lemma {:induction false} ParseItemsDoc(items: Items, xs: seq<Json>, rest: seq<Token>)
    requires items.Item?
    ensures ParseItems(TokensOfItems(items) + ([RBracket] + rest), xs) == Some((Arr(xs + Values(items)), rest))
    decreases items, 0
  {
    var v := items.value;
    if items.rest.End? {
      ParseDoc(v, [RBracket] + rest);
      assert Values(items) == [Value(v)];
      assert ([RBracket] + rest)[1..] == rest;
    } else {
      var more := [Comma] + (TokensOfItems(items.rest) + ([RBracket] + rest));
      assert TokensOfItems(items) + ([RBracket] + rest) == Tokens(v) + more;
      ParseDoc(v, more);
      assert more[1..] == TokensOfItems(items.rest) + ([RBracket] + rest);
      ParseItemsDoc(items.rest, xs + [Value(v)], rest);
      assert xs + [Value(v)] + Values(items.rest) == xs + Values(items);
    }
  }

  lemma {:induction false} ParseFieldsDoc(fs: Fields, m: map<string, Json>, rest: seq<Token>)
    requires fs.Field?
    ensures ParseFields(TokensOfFields(fs) + ([RBrace] + rest), m) == Some((Obj(Members(fs, m)), rest))
    decreases fs, 0
  {
    var v, end := fs.value, [RBrace] + rest;
    if fs.rest.Nothing? {
      ParseDoc(v, end);
      ParseOneField(fs.key, Tokens(v), end, m, Value(v));
      RegroupTokens([Text(fs.key), Colon], Tokens(v), [], [], end);
      assert end[1..] == rest;
    } else {
      var tail := TokensOfFields(fs.rest) + end;
      ParseDoc(v, [Comma] + tail);
      ParseOneField(fs.key, Tokens(v), [Comma] + tail, m, Value(v));
      RegroupTokens([Text(fs.key), Colon], Tokens(v), [Comma], TokensOfFields(fs.rest), end);
      assert ([Comma] + tail)[1..] == tail;
      ParseFieldsDoc(fs.rest, m[fs.key := Value(v)], rest);
    }
  }

  lemma RegroupTokens(a: seq<Token>, b: seq<Token>, c: seq<Token>, d: seq<Token>, e: seq<Token>)
    ensures a + b + c + d + e == a + (b + (c + (d + e)))
    ensures c == [] && d == [] ==> a + b + e == a + (b + e)
  {
  }

  /** One member, whatever follows it. */
  lemma ParseOneField(key: string, value: seq<Token>, more: seq<Token>, m: map<string, Json>, v: Json)
    requires ParseValue(value + more) == Some((v, more)) && more != [] && (more[0] == RBrace || more[0] == Comma)
    ensures ParseFields([Text(key), Colon] + (value + more), m) ==
              if more[0] == RBrace then Some((Obj(m[key := v]), more[1..])) else ParseFields(more[1..], m[key := v])
  {
    assert ([Text(key), Colon] + (value + more))[2..] == value + more;
  }

  /** Documents are legible piece by piece. */
  lemma FieldLegible(before: string, key: string, v: Doc, rest: Fields)
    requires Blank(before) && Clean(key) && Legible(v) && LegibleFields(rest)
    ensures LegibleFields(Field(before, key, v, rest))
  {
  }

  /** Reading a rendered document gives its value, whatever the white space. */
  lemma {:induction false} ReadRendered(before: string, d: Doc)
    requires Blank(before) && Legible(d)
    ensures Read(before + Render(d)) == Some(Value(d))
  {
    assert Render(d) + "" == Render(d);
    LexBlank(before, Render(d));
    LexDoc(d, "");
    assert Tokens(d) + [] == Tokens(d);
    ParseDoc(d, []);
  }
}
